/** Removing what a set no longer wants: stale children, and all children once the set is deleted
    (deleteStaleChildren, reconcileDelete). */
module Cleanup {
  import opened Model
  import Metadata
  import opened Hub
  import opened FanOut

  // ---------------------------------------------------------------- stale children

  predicate WorkDesired(works: map<string, set<string>>, k: Key) {
    k.cluster in works && k.name in works[k.cluster]
  }

  function StaleWorks(store: Store, id: SetId, selected: set<string>, cleanup: set<string>,
                      works: map<string, set<string>>): set<Key> {
    set k | k in Owned(store, id, WorkKind)
        && (k.cluster !in selected || (k.cluster in cleanup && !WorkDesired(works, k)))
  }

  function StaleAccounts(store: Store, id: SetId, selected: set<string>, cleanup: set<string>,
                         accounts: set<string>): set<Key> {
    set k | k in Owned(store, id, AccountKind)
        && (k.cluster !in selected || (k.cluster in cleanup && k.name !in accounts))
  }

  datatype Swept = Swept(hub: HubState, pending: bool, failed: bool)

  function DeleteStale(h: HubState, id: SetId, selected: set<string>, cleanup: set<string>,
                       works: map<string, set<string>>, accounts: set<string>, faults: set<Call>): Swept {
    if ListWorks in faults then Swept(h, false, true)
    else
      var staleWorks := StaleWorks(h.store, id, selected, cleanup, works);
      if staleWorks != {} then Swept(DeleteAll(h, staleWorks, faults), true, DeleteFails(staleWorks, faults))
      else if ListAccounts in faults then Swept(h, false, true)
      else
        var staleAccounts := StaleAccounts(h.store, id, selected, cleanup, accounts);
        Swept(DeleteAll(h, staleAccounts, faults), false, DeleteFails(staleAccounts, faults))
  }

  /** How a pass over the children ended; `failed` is an error other than a conflict. */
  datatype ChildResult = ChildResult(ready: nat, conflicts: nat, failures: nat, pending: bool, failed: bool)

  datatype Reconciled = Reconciled(hub: HubState, tally: Tally, result: ChildResult)

  function Selected(clusters: seq<string>): set<string> {
    set c | c in clusters
  }

  function ReconcileChildren(h: HubState, clusters: seq<string>, cleanup: set<string>, x: Job): Reconciled {
    var (fanned, t) := FanOutAll(h, clusters, x);
    if t.failures > 0 then Reconciled(fanned, t, ChildResult(t.ready, t.conflicts, t.failures, false, true))
    else
      var swept := DeleteStale(fanned, x.id, Selected(clusters), cleanup, t.works, x.accounts, x.faults);
      Reconciled(swept.hub, t, ChildResult(t.ready, t.conflicts, 0, swept.pending, swept.failed))
  }

  // ---------------------------------------------------------------- a deleted set

  datatype DeleteVerdict = DeleteError | WaitFor(works: nat, accounts: nat) | CleanedUp

  function Live(store: Store, keys: set<Key>): set<Key>
    requires keys <= store.Keys
  {
    set k | k in keys && !store[k].terminating
  }

  /** One pass over the children of a deleted set: the works first, and the accounts once no work is left. */
  function DeletePass(h: HubState, id: SetId, faults: set<Call>): (HubState, DeleteVerdict) {
    if ListWorks in faults then (h, DeleteError)
    else
      var works := Owned(h.store, id, WorkKind);
      var liveWorks := Live(h.store, works);
      if DeleteFails(liveWorks, faults) then (DeleteAll(h, liveWorks, faults), DeleteError)
      else if works != {} then (DeleteAll(h, liveWorks, faults), WaitFor(|works|, 0))
      else if ListAccounts in faults then (h, DeleteError)
      else
        var accounts := Owned(h.store, id, AccountKind);
        var liveAccounts := Live(h.store, accounts);
        if DeleteFails(liveAccounts, faults) then (DeleteAll(h, liveAccounts, faults), DeleteError)
        else if accounts != {} then (DeleteAll(h, liveAccounts, faults), WaitFor(0, |accounts|))
        else (h, CleanedUp)
  }

  // ---------------------------------------------------------------- the loops

  /** Stale works first; as long as there were any, the accounts are not even listed. */
  method DeleteStaleChildren(hub: Client, id: SetId, selected: set<string>, cleanup: set<string>,
                             works: map<string, set<string>>, accounts: set<string>, faults: set<Call>)
    returns (pending: bool, failed: bool)
    modifies hub`store, hub`writes
    ensures Swept(hub.View(), pending, failed)
            == DeleteStale(old(hub.View()), id, selected, cleanup, works, accounts, faults)
  {
    hide Metadata.OwnedBySet;
    if ListWorks in faults {
      return false, true;
    }
    var listed := Owned(hub.store, id, WorkKind);
    var staleWork := (k: Key) => k.cluster !in selected || (k.cluster in cleanup && !WorkDesired(works, k));
    assert Doomed(listed, staleWork) == StaleWorks(hub.store, id, selected, cleanup, works);
    pending, failed := hub.DeleteWhere(listed, staleWork, faults);
    if failed || pending {
      return true, failed;
    }
    assert hub.View() == DeleteAll(old(hub.View()), {}, faults) == old(hub.View());
    if ListAccounts in faults {
      return false, true;
    }
    listed := Owned(hub.store, id, AccountKind);
    var staleAccount := (k: Key) => k.cluster !in selected || (k.cluster in cleanup && k.name !in accounts);
    assert Doomed(listed, staleAccount) == StaleAccounts(hub.store, id, selected, cleanup, accounts);
    var _, lost := hub.DeleteWhere(listed, staleAccount, faults);
    return false, lost;
  }

  /** What is terminating already is skipped, but waited for. */
  method DeleteOwnChildren(hub: Client, id: SetId, faults: set<Call>) returns (verdict: DeleteVerdict)
    modifies hub`store, hub`writes
    ensures (hub.View(), verdict) == DeletePass(old(hub.View()), id, faults)
  {
    hide Metadata.OwnedBySet;
    if ListWorks in faults {
      return DeleteError;
    }
    var items := hub.store;
    var live := (k: Key) => k in items && !items[k].terminating;
    var works := Owned(items, id, WorkKind);
    assert Doomed(works, live) == Live(items, works);
    var saw, failed := hub.DeleteWhere(works, live, faults);
    if failed {
      return DeleteError;
    }
    if works != {} {
      return WaitFor(|works|, 0);
    }
    assert hub.View() == DeleteAll(old(hub.View()), {}, faults) == old(hub.View());
    if ListAccounts in faults {
      return DeleteError;
    }
    var accounts := Owned(items, id, AccountKind);
    assert Doomed(accounts, live) == Live(items, accounts);
    saw, failed := hub.DeleteWhere(accounts, live, faults);
    if failed {
      return DeleteError;
    }
    if accounts != {} {
      return WaitFor(0, |accounts|);
    }
    assert hub.View() == DeleteAll(old(hub.View()), {}, faults) == old(hub.View());
    return CleanedUp;
  }

  // ---------------------------------------------------------------- what a pass may delete

  /** The tally lists, for every cluster, the works that the cluster's step asked for. */
  lemma {:induction false} TotalWorks(clusters: seq<string>, reports: seq<Report>, x: Job)
    requires |clusters| == |reports| && NoRepeats(clusters)
    ensures Total(clusters, reports, x).works.Keys == Selected(clusters)
    ensures forall i :: 0 <= i < |clusters| ==> Total(clusters, reports, x).works[clusters[i]] == reports[i].works
  {
    hide AddToRefs, Plus, RefsOf;
    var n := |clusters| - 1;
    if n >= 0 {
      TotalWorks(clusters[..n], reports[..n], x);
      assert forall c :: c in clusters <==> c in clusters[..n] || c == clusters[n];
      assert forall i :: 0 <= i < n ==> clusters[..n][i] == clusters[i] && reports[..n][i] == reports[i];
    }
  }

  /** A pass without failures or conflicts is one in which no cluster's step had any. */
  lemma {:induction false} TotalClean(clusters: seq<string>, reports: seq<Report>, x: Job)
    requires |clusters| == |reports|
    ensures Total(clusters, reports, x).failures == 0 <==> forall r | r in reports :: r.failures == 0
    ensures Total(clusters, reports, x).conflicts == 0 <==> forall r | r in reports :: r.conflicts == 0
  {
    var n := |clusters| - 1;
    if n >= 0 {
      TotalClean(clusters[..n], reports[..n], x);
      assert forall r :: r in reports <==> r in reports[..n] || r == reports[n];
    }
  }

  /** The works the cleanup of a failure-free pass takes for desired. */
  lemma DesiredInPass(h: HubState, clusters: seq<string>, x: Job, k: Key)
    requires NoRepeats(clusters) && JobOk(x) && FanOutAll(h, clusters, x).1.failures == 0
    requires k.kind.WorkKind? && k.cluster in clusters && k.cluster in x.window
    ensures GetClusterNamespace(k.cluster) !in x.faults
    ensures WorkDesired(FanOutAll(h, clusters, x).1.works, k) <==> Has(ChildrenOf(x, k.cluster), k)
  {
    FanOutSplits(h, clusters, x);
    var reports := Reports(h, clusters, x);
    TotalWorks(clusters, reports, x);
    TotalClean(clusters, reports, x);
    var i :| 0 <= i < |clusters| && clusters[i] == k.cluster;
    assert reports[i] in reports && reports[i] == StepCluster(h, k.cluster, x).1;
    assert ClusterOk(x, k.cluster);
  }

  ghost function Deleted(before: HubState, after: HubState): set<Key> {
    set w | w in after.writes - before.writes && w.Delete? :: w.key
  }

  ghost function Ensured(before: HubState, after: HubState): set<Key> {
    set w | w in after.writes - before.writes && !w.Delete? :: w.key
  }

  /** What a pass deletes: its own children, in unselected clusters or undesired ones in the cleanup window, and
      nothing after a failure. */
  lemma CleanupFootprint(h: HubState, clusters: seq<string>, cleanup: set<string>, x: Job)
    requires NoRepeats(clusters) && JobOk(x) && cleanup <= x.window && h.writes == {}
    ensures var r := ReconcileChildren(h, clusters, cleanup, x);
            && Deleted(h, r.hub) !! Ensured(h, r.hub)
            && (forall w | w in r.hub.writes && w.key.cluster in clusters :: w.key.cluster in x.window)
            && (forall k | k in Ensured(h, r.hub) :: k.cluster in clusters && MayEnsure(x, k))
            && (forall k | k in Deleted(h, r.hub) ::
                k.cluster !in clusters || (k.cluster in cleanup && !Has(ChildrenOf(x, k.cluster), k)))
            && (r.result.failures > 0 ==> Deleted(h, r.hub) == {})
  {
    hide Metadata.Owner, Metadata.OwnedBySet;
    var (fanned, t) := FanOutAll(h, clusters, x);
    FanOutWrites(h, clusters, x);
    var r := ReconcileChildren(h, clusters, cleanup, x);
    if t.failures == 0 {
      forall k | k in Deleted(h, r.hub)
        ensures k.cluster !in clusters || (k.cluster in cleanup && !Has(ChildrenOf(x, k.cluster), k))
      {
        assert Delete(k) in r.hub.writes - fanned.writes;
        if k.cluster in clusters {
          assert ClusterOk(x, k.cluster);
          if k.kind.WorkKind? { DesiredInPass(h, clusters, x, k); }
        }
      }
    }
  }
}
