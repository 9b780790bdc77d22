/** What the passes over a live set achieve: order of cleanup, convergence and quiescence. */
module Convergence {
  import opened Model
  import opened Metadata
  import opened Children
  import opened Hub
  import opened FanOut
  import opened Cleanup

  // ---------------------------------------------------------------- permissions go before credentials

  /** No work of the set is stale: all lie in selected clusters, and in the cleanup window only desired ones. */
  ghost predicate NoStaleWorks(store: Store, clusters: seq<string>, cleanup: set<string>, x: Job) {
    forall w | w in store && w.kind.WorkKind? && Owner(store[w].labels) == Some(x.id) ::
      w.cluster in clusters && (w.cluster in cleanup ==> Has(ChildrenOf(x, w.cluster), w))
  }

  ghost predicate NoWorksIn(store: Store, id: SetId, cluster: string) {
    forall w | w in store && w.kind.WorkKind? && w.cluster == cluster :: Owner(store[w].labels) != Some(id)
  }

  /** While a pass deletes an account, the hub holds no stale work of the set: none in the account's cluster if that
      is no longer selected, and only desired ones there otherwise. */
  lemma StaleAccountsAfterWorks(h: HubState, clusters: seq<string>, cleanup: set<string>, x: Job, account: Key)
    requires NoRepeats(clusters) && JobOk(x) && cleanup <= x.window && h.writes == {}
    requires account.kind.AccountKind?
    requires Delete(account) in ReconcileChildren(h, clusters, cleanup, x).hub.writes
    ensures NoStaleWorks(ReconcileChildren(h, clusters, cleanup, x).hub.store, clusters, cleanup, x)
    ensures account.cluster !in clusters ==> NoWorksIn(h.store, x.id, account.cluster)
  {
    hide Owner, OwnedBySet;
    var (fanned, t) := FanOutAll(h, clusters, x);
    FanOutWrites(h, clusters, x);
    FanOutSplits(h, clusters, x);
    var r := ReconcileChildren(h, clusters, cleanup, x);
    OwnedKeys(fanned.store, x.id, WorkKind);
    OwnedKeys(fanned.store, x.id, AccountKind);
    assert Delete(account) !in fanned.writes;
    assert t.failures == 0;
    var stale := StaleWorks(fanned.store, x.id, Selected(clusters), cleanup, t.works);
    assert stale != {} ==> r.hub == DeleteAll(fanned, stale, x.faults) && account in stale;
    forall w | w in fanned.store && w.kind.WorkKind? && Owner(fanned.store[w].labels) == Some(x.id)
      ensures w.cluster in clusters && (w.cluster in cleanup ==> Has(ChildrenOf(x, w.cluster), w))
    {
      assert w in Owned(fanned.store, x.id, WorkKind) && w !in stale;
      if w.cluster in cleanup { DesiredInPass(h, clusters, x, w); }
    }
    if account.cluster !in clusters {
      assert Agree(fanned.store, Expected(h, clusters, x, account.cluster), account.cluster);
      forall w | w in h.store && w.kind.WorkKind? && w.cluster == account.cluster
        ensures Owner(h.store[w].labels) != Some(x.id)
      {
        assert Get(fanned.store, w) == Get(h.store, w);
      }
    }
  }

  // ---------------------------------------------------------------- convergence

  lemma {:induction false} AllDone(outcomes: seq<Outcome>)
    ensures CountConflicts(outcomes) == 0 && CountFailures(outcomes) == 0 <==> forall o | o in outcomes :: o.Done?
  {
    var n := |outcomes| - 1;
    if n >= 0 {
      AllDone(outcomes[..n]);
      assert outcomes[n] in outcomes;
      assert forall o :: o in outcomes <==> o in outcomes[..n] || o == outcomes[n];
    }
  }

  /** A cluster whose step had neither conflict nor failure has all its children in place. */
  lemma StepInPlace(h: HubState, cluster: string, x: Job)
    requires ClusterOk(x, cluster) && KeysAgree(ChildrenOf(x, cluster)) && cluster in x.window
    requires var report := StepCluster(h, cluster, x).1; report.conflicts == 0 && report.failures == 0
    ensures forall d | d in ChildrenOf(x, cluster) :: InPlace(StepCluster(h, cluster, x).0.store, x.id, d)
  {
    var ds := ChildrenOf(x, cluster);
    var (after, outcomes) := EnsureAll(h, x.id, ds, x.faults);
    AllDone(outcomes);
    forall i | 0 <= i < |ds| ensures InPlace(after.store, x.id, ds[i]) {
      assert outcomes[i] in outcomes;
      EnsureAllPointwise(h, x.id, ds, x.faults, i);
      EnsureDone(h, x.id, ds[i], x.faults);
      assert Get(after.store, ds[i].key) == Get(Ensure(h, x.id, ds[i], x.faults).0.store, ds[i].key);
    }
  }

  /** The hub is as the set wants it: all children in place, and nothing else of the set's but accounts on their way
      out. A child in place may itself have been deleted by someone; see LiveAreWantedExactly. */
  ghost predicate Converged(store: Store, clusters: seq<string>, x: Job) {
    && (forall c, d | c in clusters && d in ChildrenOf(x, c) :: InPlace(store, x.id, d))
    && (forall k | k in store && Owner(store[k].labels) == Some(x.id) ::
          (k.cluster in clusters && Has(ChildrenOf(x, k.cluster), k)) || (k.kind.AccountKind? && store[k].terminating))
  }

  /** The same, except that selected clusters outside the cleanup window may keep what is no longer wanted there. */
  ghost predicate ConvergedWithin(store: Store, clusters: seq<string>, cleanup: set<string>, x: Job) {
    && (forall c, d | c in clusters && d in ChildrenOf(x, c) :: InPlace(store, x.id, d))
    && (forall k | k in store && Owner(store[k].labels) == Some(x.id) ::
          || (k.cluster in clusters && Has(ChildrenOf(x, k.cluster), k))
          || (k.kind.AccountKind? && store[k].terminating)
          || (k.cluster in clusters && k.cluster !in cleanup))
  }

  ghost predicate AllInPlace(store: Store, x: Job, cluster: string) {
    forall d | d in ChildrenOf(x, cluster) :: InPlace(store, x.id, d)
  }

  ghost predicate CleanPass(r: Reconciled) {
    r.result.conflicts == 0 && !r.result.failed && !r.result.pending
  }

  lemma FannedInPlace(h: HubState, clusters: seq<string>, x: Job)
    requires NoRepeats(clusters) && JobOk(x)
    requires forall c | c in clusters ::
               if c in x.window then KeysAgree(ChildrenOf(x, c)) else AllInPlace(h.store, x, c)
    requires var t := FanOutAll(h, clusters, x).1; t.conflicts == 0 && t.failures == 0
    ensures forall c, d | c in clusters && d in ChildrenOf(x, c) :: InPlace(FanOutAll(h, clusters, x).0.store, x.id, d)
  {
    var fanned := FanOutAll(h, clusters, x).0;
    FanOutSplits(h, clusters, x);
    var reports := Reports(h, clusters, x);
    TotalClean(clusters, reports, x);
    forall c, d | c in clusters && d in ChildrenOf(x, c) ensures InPlace(fanned.store, x.id, d) {
      var i :| 0 <= i < |clusters| && clusters[i] == c;
      assert reports[i] in reports;
      assert ClusterOk(x, c);
      if c in x.window { StepInPlace(h, c, x); }
      assert Agree(fanned.store, Expected(h, clusters, x, c), c);
      assert Get(fanned.store, d.key) == Get(StepCluster(h, c, x).0.store, d.key);
    }
  }

  /** The tally's work lists say which works are desired. */
  ghost predicate WorksListed(clusters: seq<string>, cleanup: set<string>, x: Job, works: map<string, set<string>>) {
    forall k: Key | k.kind.WorkKind? && k.cluster in clusters && k.cluster in cleanup ::
        WorkDesired(works, k) <==> Has(ChildrenOf(x, k.cluster), k)
  }

  lemma FanOutLists(h: HubState, clusters: seq<string>, cleanup: set<string>, x: Job)
    requires NoRepeats(clusters) && JobOk(x) && cleanup <= x.window && FanOutAll(h, clusters, x).1.failures == 0
    ensures WorksListed(clusters, cleanup, x, FanOutAll(h, clusters, x).1.works)
  {
    forall k: Key | k.kind.WorkKind? && k.cluster in clusters && k.cluster in cleanup
      ensures WorkDesired(FanOutAll(h, clusters, x).1.works, k) <==> Has(ChildrenOf(x, k.cluster), k)
    {
      DesiredInPass(h, clusters, x, k);
    }
  }

  /** A sweep never takes a child that is desired. */
  lemma SweepKeepsDesired(h: HubState, clusters: seq<string>, cleanup: set<string>, x: Job,
                          works: map<string, set<string>>, c: string, d: Desired)
    requires ClusterOk(x, c) && WorksListed(clusters, cleanup, x, works) && c in clusters && d in ChildrenOf(x, c)
    ensures Get(DeleteStale(h, x.id, Selected(clusters), cleanup, works, x.accounts, x.faults).hub.store, d.key)
            == Get(h.store, d.key)
  {
    assert Has(ChildrenOf(x, c), d.key);
    assert d.key !in StaleAccounts(h.store, x.id, Selected(clusters), cleanup, x.accounts);
    assert d.key !in StaleWorks(h.store, x.id, Selected(clusters), cleanup, works);
  }

  /** Once all children are in place, an untroubled sweep leaves nothing else of the set's. */
  lemma SweepConverges(h: HubState, clusters: seq<string>, cleanup: set<string>, x: Job,
                       works: map<string, set<string>>)
    requires JobOk(x) && WorksListed(clusters, cleanup, x, works)
    requires forall c, d | c in clusters && d in ChildrenOf(x, c) :: InPlace(h.store, x.id, d)
    requires var swept := DeleteStale(h, x.id, Selected(clusters), cleanup, works, x.accounts, x.faults);
             !swept.pending && !swept.failed
    ensures ConvergedWithin(DeleteStale(h, x.id, Selected(clusters), cleanup, works, x.accounts, x.faults).hub.store,
                            clusters, cleanup, x)
  {
    hide Owner, ChildMatches, DeleteStale;
    var swept := DeleteStale(h, x.id, Selected(clusters), cleanup, works, x.accounts, x.faults).hub;
    forall c, d | c in clusters && d in ChildrenOf(x, c) ensures InPlace(swept.store, x.id, d) {
      assert ClusterOk(x, c);
      SweepKeepsDesired(h, clusters, cleanup, x, works, c, d);
      assert InPlace(h.store, x.id, d) && Get(swept.store, d.key) == Get(h.store, d.key);
    }
    forall k | k in swept.store && Owner(swept.store[k].labels) == Some(x.id)
      ensures (k.cluster in clusters && Has(ChildrenOf(x, k.cluster), k))
              || (k.kind.AccountKind? && swept.store[k].terminating)
              || (k.cluster in clusters && k.cluster !in cleanup)
    {
      assert ClusterOk(x, k.cluster);
      SweepLeftover(h, clusters, cleanup, x, works, k);
    }
  }

  lemma SweepLeftover(h: HubState, clusters: seq<string>, cleanup: set<string>, x: Job, works: map<string, set<string>>,
                      k: Key)
    requires ClusterOk(x, k.cluster) && WorksListed(clusters, cleanup, x, works)
    requires var swept := DeleteStale(h, x.id, Selected(clusters), cleanup, works, x.accounts, x.faults);
             !swept.pending && !swept.failed && k in swept.hub.store && Owner(swept.hub.store[k].labels) == Some(x.id)
    ensures var swept := DeleteStale(h, x.id, Selected(clusters), cleanup, works, x.accounts, x.faults);
            || (k.cluster in clusters && Has(ChildrenOf(x, k.cluster), k))
            || (k.kind.AccountKind? && swept.hub.store[k].terminating)
            || (k.cluster in clusters && k.cluster !in cleanup)
  {
    hide Owner, ChildMatches, OwnedBySet;
    OwnedKeys(h.store, x.id, WorkKind);
    OwnedKeys(h.store, x.id, AccountKind);
    var staleWorks := StaleWorks(h.store, x.id, Selected(clusters), cleanup, works);
    var stale := StaleAccounts(h.store, x.id, Selected(clusters), cleanup, x.accounts);
    assert DeleteStale(h, x.id, Selected(clusters), cleanup, works, x.accounts, x.faults).hub
        == DeleteAll(h, stale, x.faults);
    assert k == Key(k.kind, k.cluster, k.name);
    if k.kind.WorkKind? {
      assert k in Owned(h.store, x.id, WorkKind) && k !in staleWorks;
    } else {
      assert k in Owned(h.store, x.id, AccountKind);
      assert k in stale ==> DeleteChild(k) !in x.faults;
    }
  }

  /** A clean pass over clusters that are in the window or had all children in place beforehand leaves all children in
      place, and nothing else of the set's but accounts on their way out and what the window spares. */
  lemma PassConvergesWithin(h: HubState, clusters: seq<string>, cleanup: set<string>, x: Job)
    requires NoRepeats(clusters) && JobOk(x) && cleanup <= x.window
    requires forall c | c in clusters ::
               if c in x.window then KeysAgree(ChildrenOf(x, c)) else AllInPlace(h.store, x, c)
    requires CleanPass(ReconcileChildren(h, clusters, cleanup, x))
    ensures ConvergedWithin(ReconcileChildren(h, clusters, cleanup, x).hub.store, clusters, cleanup, x)
  {
    var (fanned, t) := FanOutAll(h, clusters, x);
    FannedInPlace(h, clusters, x);
    FanOutLists(h, clusters, cleanup, x);
    SweepConverges(fanned, clusters, cleanup, x, t.works);
  }

  /** A clean pass whose window covers the selected clusters leaves the hub converged. */
  lemma PassConverges(h: HubState, clusters: seq<string>, cleanup: set<string>, x: Job)
    requires NoRepeats(clusters) && JobOk(x) && cleanup <= x.window
    requires forall c | c in clusters :: c in cleanup && KeysAgree(ChildrenOf(x, c))
    requires CleanPass(ReconcileChildren(h, clusters, cleanup, x))
    ensures Converged(ReconcileChildren(h, clusters, cleanup, x).hub.store, clusters, x)
  {
    hide ReconcileChildren, KeysAgree, InPlace, Has, Owner, ChildrenOf;
    PassConvergesWithin(h, clusters, cleanup, x);
  }

  // ---------------------------------------------------------------- children that someone has deleted

  /** A successful ensure leaves a terminating child terminating, and no other. */
  lemma EnsureKeepsTerminating(h: HubState, id: SetId, d: Desired, faults: set<Call>)
    requires Ensure(h, id, d, faults).1.Done?
    ensures var after := Ensure(h, id, d, faults).0.store;
            d.key in after && (after[d.key].terminating <==> d.key in h.store && h.store[d.key].terminating)
  {
    hide OwnedBySet, Stored, SpecEqual;
  }

  ghost predicate SameTerminating(before: Store, after: Store, k: Key) {
    k in after && (after[k].terminating <==> k in before && before[k].terminating)
  }

  lemma StepKeepsTerminating(h: HubState, cluster: string, x: Job)
    requires ClusterOk(x, cluster) && KeysAgree(ChildrenOf(x, cluster)) && cluster in x.window
    requires var report := StepCluster(h, cluster, x).1; report.conflicts == 0 && report.failures == 0
    ensures forall d | d in ChildrenOf(x, cluster) ::
              SameTerminating(h.store, StepCluster(h, cluster, x).0.store, d.key)
  {
    hide Owner, Ensure, KeysAgree, AllReady, Contribution, ChildrenOf;
    var ds := ChildrenOf(x, cluster);
    var (after, outcomes) := EnsureAll(h, x.id, ds, x.faults);
    AllDone(outcomes);
    forall i | 0 <= i < |ds| ensures SameTerminating(h.store, after.store, ds[i].key) {
      assert outcomes[i] in outcomes;
      EnsureAllPointwise(h, x.id, ds, x.faults, i);
      EnsureKeepsTerminating(h, x.id, ds[i], x.faults);
      assert Get(after.store, ds[i].key) == Get(Ensure(h, x.id, ds[i], x.faults).0.store, ds[i].key);
    }
  }

  ghost function WantedKeys(clusters: seq<string>, x: Job): set<Key> {
    set c, d | c in clusters && d in ChildrenOf(x, c) :: d.key
  }

  /** Nobody has deleted any of these children. */
  ghost predicate NoneDeleted(store: Store, keys: set<Key>) {
    forall k | k in keys && k in store :: !store[k].terminating
  }

  lemma PassKeepsTerminating(h: HubState, clusters: seq<string>, cleanup: set<string>, x: Job)
    requires NoRepeats(clusters) && JobOk(x) && cleanup <= x.window
    requires forall c | c in clusters :: c in cleanup && KeysAgree(ChildrenOf(x, c))
    requires CleanPass(ReconcileChildren(h, clusters, cleanup, x))
    ensures forall k | k in WantedKeys(clusters, x) ::
              SameTerminating(h.store, ReconcileChildren(h, clusters, cleanup, x).hub.store, k)
  {
    hide Owner, KeysAgree, StepCluster, ChildrenOf, DeleteStale, SameTerminating;
    var (fanned, t) := FanOutAll(h, clusters, x);
    var after := ReconcileChildren(h, clusters, cleanup, x).hub.store;
    var reports := Reports(h, clusters, x);
    FanOutSplits(h, clusters, x);
    FanOutLists(h, clusters, cleanup, x);
    TotalClean(clusters, reports, x);
    forall c, d | c in clusters && d in ChildrenOf(x, c) ensures SameTerminating(h.store, after, d.key) {
      var i :| 0 <= i < |clusters| && clusters[i] == c;
      assert reports[i] in reports && ClusterOk(x, c);
      StepKeepsTerminating(h, c, x);
      assert Agree(fanned.store, Expected(h, clusters, x, c), c) && d.key.cluster == c;
      SweepKeepsDesired(fanned, clusters, cleanup, x, t.works, c, d);
      TerminatingMoves(h.store, StepCluster(h, c, x).0.store, after, d.key);
    }
  }

  lemma TerminatingMoves(before: Store, a: Store, b: Store, k: Key)
    requires SameTerminating(before, a, k) && Get(a, k) == Get(b, k)
    ensures SameTerminating(before, b, k)
  {
  }

  /** Nothing looks at deletion marks, so after a clean pass whose window covers the selected clusters the children that
      nobody has deleted are exactly the wanted ones if and only if no wanted child had been deleted before. */
  lemma LiveAreWantedExactly(h: HubState, clusters: seq<string>, cleanup: set<string>, x: Job)
    requires NoRepeats(clusters) && JobOk(x) && cleanup <= x.window
    requires forall c | c in clusters :: c in cleanup && KeysAgree(ChildrenOf(x, c))
    requires CleanPass(ReconcileChildren(h, clusters, cleanup, x))
    ensures LiveOf(ReconcileChildren(h, clusters, cleanup, x).hub.store, x.id) == WantedKeys(clusters, x)
            <==> NoneDeleted(h.store, WantedKeys(clusters, x))
  {
    hide ReconcileChildren, KeysAgree, Owner, ChildrenOf, ChildMatches;
    var after, wanted := ReconcileChildren(h, clusters, cleanup, x).hub.store, WantedKeys(clusters, x);
    PassConverges(h, clusters, cleanup, x);
    PassKeepsTerminating(h, clusters, cleanup, x);
    assert forall k :: k in LiveOf(after, x.id) ==> k in wanted;
    forall k | k in wanted ensures k in LiveOf(after, x.id) <==> !(k in h.store && h.store[k].terminating) {
      var c, d :| c in clusters && d in ChildrenOf(x, c) && d.key == k;
      assert InPlace(after, x.id, d);
    }
  }

  lemma {:induction false} FanOutQuiet(h: HubState, clusters: seq<string>, x: Job)
    requires JobOk(x) && forall c, d | c in clusters && d in ChildrenOf(x, c) :: InPlace(h.store, x.id, d)
    ensures FanOutAll(h, clusters, x).0 == h
  {
    var n := |clusters| - 1;
    if n >= 0 {
      FanOutQuiet(h, clusters[..n], x);
      assert clusters[n] in clusters;
      EnsureAllInPlace(h, x.id, ChildrenOf(x, clusters[n]), x.faults);
    }
  }

  lemma StepNoConflict(h: HubState, cluster: string, x: Job)
    requires forall d | d in ChildrenOf(x, cluster) :: InPlace(h.store, x.id, d)
    ensures StepCluster(h, cluster, x).1.conflicts == 0
  {
    EnsureAllInPlace(h, x.id, ChildrenOf(x, cluster), x.faults);
    NoneConflict(EnsureAll(h, x.id, ChildrenOf(x, cluster), x.faults).1);
  }

  lemma NoConflicts(h: HubState, clusters: seq<string>, x: Job)
    requires NoRepeats(clusters) && JobOk(x)
    requires forall c, d | c in clusters && d in ChildrenOf(x, c) :: InPlace(h.store, x.id, d)
    ensures FanOutAll(h, clusters, x).1.conflicts == 0
  {
    FanOutSplits(h, clusters, x);
    var reports := Reports(h, clusters, x);
    forall i | 0 <= i < |clusters| ensures reports[i].conflicts == 0 {
      assert clusters[i] in clusters;
      StepNoConflict(h, clusters[i], x);
    }
    TotalClean(clusters, reports, x);
  }

  lemma SweepQuiet(h: HubState, clusters: seq<string>, cleanup: set<string>, x: Job, works: map<string, set<string>>)
    requires JobOk(x) && StoreOk(h.store) && WorksListed(clusters, cleanup, x, works) && Converged(h.store, clusters, x)
    ensures var swept := DeleteStale(h, x.id, Selected(clusters), cleanup, works, x.accounts, x.faults);
            && swept.hub.store == h.store && !swept.pending
            && forall w | w in swept.hub.writes - h.writes ::
                w.Delete? && w.key in h.store && h.store[w.key].terminating
  {
    hide Owner, OwnedBySet, ChildMatches;
    OwnedKeys(h.store, x.id, WorkKind);
    OwnedKeys(h.store, x.id, AccountKind);
    assert StaleWorks(h.store, x.id, Selected(clusters), cleanup, works) == {};
    var stale := StaleAccounts(h.store, x.id, Selected(clusters), cleanup, x.accounts);
    forall k | k in stale ensures h.store[k].terminating && h.store[k].held {
      if k.cluster in clusters { assert ClusterOk(x, k.cluster); }
    }
    assert DeleteAll(h, stale, x.faults).store == h.store;
  }

  /** On a converged hub no pass changes anything, whatever its window and whatever calls fail; it only deletes again
      what is going anyway. */
  lemma ConvergedIsStable(h: HubState, clusters: seq<string>, cleanup: set<string>, x: Job)
    requires NoRepeats(clusters) && JobOk(x) && StoreOk(h.store) && cleanup <= x.window
    requires Converged(h.store, clusters, x)
    ensures var r := ReconcileChildren(h, clusters, cleanup, x);
            && r.hub.store == h.store
            && r.result.conflicts == 0 && !r.result.pending
            && forall w | w in r.hub.writes - h.writes :: w.Delete? && w.key in h.store && h.store[w.key].terminating
  {
    FanOutQuiet(h, clusters, x);
    NoConflicts(h, clusters, x);
    var t := FanOutAll(h, clusters, x).1;
    if t.failures == 0 {
      FanOutLists(h, clusters, cleanup, x);
      SweepQuiet(h, clusters, cleanup, x, t.works);
    }
  }

  // ---------------------------------------------------------------- getting there

  /** Nobody else has taken a key that the set wants. */
  ghost predicate NoForeign(store: Store, clusters: seq<string>, x: Job) {
    forall c, d | c in clusters && d in ChildrenOf(x, c) && d.key in store :: Owner(store[d.key].labels) == Some(x.id)
  }

  ghost predicate UnwantedWork(store: Store, clusters: seq<string>, x: Job, k: Key) {
    k in store && k.kind.WorkKind? && Owner(store[k].labels) == Some(x.id)
        && !(k.cluster in clusters && Has(ChildrenOf(x, k.cluster), k))
  }

  lemma UntroubledStep(h: HubState, cluster: string, x: Job)
    requires ClusterOk(x, cluster) && KeysAgree(ChildrenOf(x, cluster)) && cluster in x.window && x.faults == {}
             && !x.failed(cluster)
    requires forall d | d in ChildrenOf(x, cluster) && d.key in h.store :: Owner(h.store[d.key].labels) == Some(x.id)
    ensures StepCluster(h, cluster, x).1.conflicts == 0 && StepCluster(h, cluster, x).1.failures == 0
  {
    hide Owner, ChildMatches, OwnedBySet, Contribution, AllReady, KeysAgree, ChildrenOf, EnsureAll;
    var ds := ChildrenOf(x, cluster);
    var outcomes := EnsureAll(h, x.id, ds, x.faults).1;
    AllDone(outcomes);
    forall i | 0 <= i < |ds| ensures outcomes[i].Done? {
      assert ds[i] in ds;
      EnsureAllPointwise(h, x.id, ds, x.faults, i);
      if ds[i].key in h.store { OwnedByOwner(x.id, h.store[ds[i].key].labels); }
    }
  }

  lemma UntroubledFanOut(h: HubState, clusters: seq<string>, x: Job)
    requires NoRepeats(clusters) && JobOk(x) && x.faults == {} && NoForeign(h.store, clusters, x)
    requires forall c | c in clusters :: c in x.window && KeysAgree(ChildrenOf(x, c)) && !x.failed(c)
    ensures FanOutAll(h, clusters, x).1.conflicts == 0 && FanOutAll(h, clusters, x).1.failures == 0
  {
    hide StepCluster, ClusterOk, KeysAgree, ChildrenOf, Owner;
    FanOutSplits(h, clusters, x);
    var reports := Reports(h, clusters, x);
    forall i | 0 <= i < |clusters| ensures reports[i].conflicts == 0 && reports[i].failures == 0 {
      assert clusters[i] in clusters && ClusterOk(x, clusters[i]);
      UntroubledStep(h, clusters[i], x);
    }
    TotalClean(clusters, reports, x);
  }

  /** The fan-out touches wanted children only. */
  lemma UnwantedUntouched(h: HubState, clusters: seq<string>, x: Job, k: Key)
    requires NoRepeats(clusters) && JobOk(x) && !(k.cluster in clusters && Has(ChildrenOf(x, k.cluster), k))
    ensures Get(FanOutAll(h, clusters, x).0.store, k) == Get(h.store, k)
  {
    hide ClusterOk, AllReady, Contribution;
    FanOutSplits(h, clusters, x);
    assert Agree(FanOutAll(h, clusters, x).0.store, Expected(h, clusters, x, k.cluster), k.cluster);
    EnsureAllFrame(h, x.id, ChildrenOf(x, k.cluster), x.faults);
  }

  lemma StaleAreUnwanted(h: HubState, clusters: seq<string>, cleanup: set<string>, x: Job,
                         works: map<string, set<string>>)
    requires WorksListed(clusters, cleanup, x, works) && forall c | c in clusters :: c in cleanup
    ensures forall k ::
              k in StaleWorks(h.store, x.id, Selected(clusters), cleanup, works) <==>
              UnwantedWork(h.store, clusters, x, k)
  {
    hide Owner, OwnedBySet;
    OwnedKeys(h.store, x.id, WorkKind);
  }

  /** A pass that nothing disturbs converges at once, unless unwanted works are left: those it stops, and its
      successor converges once their agents have let them go. */
  lemma UntroubledReconcile(h: HubState, clusters: seq<string>, cleanup: set<string>, x: Job)
    requires NoRepeats(clusters) && JobOk(x) && cleanup <= x.window && x.faults == {} && NoForeign(h.store, clusters, x)
    requires forall c | c in clusters :: c in cleanup && KeysAgree(ChildrenOf(x, c)) && !x.failed(c)
    ensures var r := ReconcileChildren(h, clusters, cleanup, x);
            && r.result.conflicts == 0 && !r.result.failed
            && (r.result.pending <==> exists k :: UnwantedWork(h.store, clusters, x, k))
            && (!r.result.pending ==> Converged(r.hub.store, clusters, x))
            && (forall k | UnwantedWork(r.hub.store, clusters, x, k) :: r.hub.store[k].terminating)
            && NoForeign(r.hub.store, clusters, x)
  {
    hide Owner, OwnedBySet, ClusterOk, ChildrenOf, KeysAgree, Has, FanOutAll, StaleWorks, StaleAccounts, Converged;
    var (fanned, t) := FanOutAll(h, clusters, x);
    UntroubledFanOut(h, clusters, x);
    FannedInPlace(h, clusters, x);
    FanOutLists(h, clusters, cleanup, x);
    StaleAreUnwanted(fanned, clusters, cleanup, x, t.works);
    forall k ensures UnwantedWork(h.store, clusters, x, k) <==> UnwantedWork(fanned.store, clusters, x, k) {
      if !(k.cluster in clusters && Has(ChildrenOf(x, k.cluster), k)) { UnwantedUntouched(h, clusters, x, k); }
    }
    var r := ReconcileChildren(h, clusters, cleanup, x);
    if !r.result.pending { PassConverges(h, clusters, cleanup, x); }
    SweepStops(fanned, clusters, cleanup, x, t.works);
  }

  lemma SweepStops(h: HubState, clusters: seq<string>, cleanup: set<string>, x: Job, works: map<string, set<string>>)
    requires WorksListed(clusters, cleanup, x, works) && (forall c | c in clusters :: c in cleanup) && x.faults == {}
    requires forall c, d | c in clusters && d in ChildrenOf(x, c) :: InPlace(h.store, x.id, d)
    ensures var after := DeleteStale(h, x.id, Selected(clusters), cleanup, works, x.accounts, x.faults).hub.store;
            && (forall k | UnwantedWork(after, clusters, x, k) :: after[k].terminating)
            && NoForeign(after, clusters, x)
  {
    hide Owner, OwnedBySet, ChildrenOf, Has, StaleWorks, StaleAccounts, ChildMatches;
    StaleAreUnwanted(h, clusters, cleanup, x, works);
    var stale := StaleWorks(h.store, x.id, Selected(clusters), cleanup, works);
    var after := DeleteStale(h, x.id, Selected(clusters), cleanup, works, x.accounts, x.faults).hub.store;
    forall k | UnwantedWork(after, clusters, x, k) ensures after[k].terminating {
      assert UnwantedWork(h.store, clusters, x, k) && k in stale;
      assert DeleteChild(k) !in x.faults;
    }
    forall c, d | c in clusters && d in ChildrenOf(x, c) && d.key in after
      ensures Owner(after[d.key].labels) == Some(x.id)
    {
      assert InPlace(h.store, x.id, d);
    }
  }
}
