/** Fanning the children of a set out over its selected clusters (reconcileChildren, aggregateExistingRBACSummary). */
module FanOut {
  import opened Model
  import opened Metadata
  import opened Children
  import opened Hub

  // ---------------------------------------------------------------- summaries

  const ZERO := Summary(0, 0, 0, 0, 0, 0, 0)

  function Plus(a: Summary, b: Summary): Summary {
    Summary(a.desiredTotal + b.desiredTotal, a.total + b.total, a.applied + b.applied, a.available + b.available,
            a.degraded + b.degraded, a.progressing + b.progressing, a.updated + b.updated)
  }

  function Bit(b: bool): int { if b then 1 else 0 }

  function SummarizeWork(work: Child, expectedHash: string): Summary {
    Summary(0, 1, Bit(WorkConditionTrue(work, WORK_APPLIED)), Bit(WorkConditionTrue(work, WORK_AVAILABLE)),
            Bit(WorkConditionTrue(work, WORK_DEGRADED)), Bit(WorkConditionTrue(work, WORK_PROGRESSING)),
            Bit((if SPEC_HASH in work.annotations then work.annotations[SPEC_HASH] else "") == expectedHash))
  }

  /** The work that carries one slice, and the hash of the slice's manifests. */
  datatype SliceWork = SliceWork(work: Desired, hash: string)

  /** The summary of the works that were obtained. */
  function SumWorks(works: seq<SliceWork>, outcomes: seq<Outcome>): Summary
    requires |works| == |outcomes|
  {
    if |works| == 0 then ZERO
    else
      var n := |works| - 1;
      var rest := SumWorks(works[..n], outcomes[..n]);
      if outcomes[n].Done? then Plus(rest, SummarizeWork(outcomes[n].child, works[n].hash)) else rest
  }

  function GetOr(s: Option<Summary>): Summary {
    if s.Some? then s.value else ZERO
  }

  function AddToRef(byRef: map<string, Summary>, ref: string, s: Summary): map<string, Summary> {
    byRef[ref := Plus(if ref in byRef then byRef[ref] else ZERO, s)]
  }

  function AddToRefs(byRef: map<string, Summary>, refs: seq<string>, s: Summary): map<string, Summary> {
    if |refs| == 0 then byRef else AddToRef(AddToRefs(byRef, refs[..|refs| - 1], s), refs[|refs| - 1], s)
  }

  // ---------------------------------------------------------------- one cluster

  /**
    What a fan-out works from. Per cluster: the controller's own access children, the account, the works of the RBAC
    slices, whether rendering them failed for some grant, and the names of all works. `accounts` are the names of the
    accounts; `refs` says which placement refs selected which cluster.
   */
  datatype Job = Job(
    id: SetId, rbac: bool, selector: bool,
    access: string -> seq<Desired>, account: string -> Desired, works: string -> seq<SliceWork>,
    failed: string -> bool, names: string -> set<string>, accounts: set<string>,
    refs: map<string, seq<string>>, window: set<string>, statuses: map<string, ClusterStatus>, faults: set<Call>)

  function Works(works: seq<SliceWork>): (r: seq<Desired>)
    ensures |r| == |works|
  {
    seq(|works|, i requires 0 <= i < |works| => works[i].work)
  }

  /** All children of a cluster, in the order in which they are ensured. */
  function ChildrenOf(x: Job, cluster: string): seq<Desired> {
    x.access(cluster) + [x.account(cluster)] + Works(x.works(cluster))
  }

  /** What one cluster adds to the outcome of the pass. */
  datatype Report = Report(
    ready: bool, accessReady: bool, conflicts: nat, failures: nat, works: set<string>, summary: Option<Summary>)

  function RefsOf(x: Job, cluster: string): seq<string> {
    if cluster in x.refs then x.refs[cluster] else []
  }

  function CountConflicts(outcomes: seq<Outcome>): nat {
    if |outcomes| == 0 then 0
    else
      var n := |outcomes| - 1;
      CountConflicts(outcomes[..n]) + if outcomes[n].Conflict? then 1 else 0
  }

  function CountFailures(outcomes: seq<Outcome>): nat {
    if |outcomes| == 0 then 0
    else
      var n := |outcomes| - 1;
      CountFailures(outcomes[..n]) + if outcomes[n].Failed? then 1 else 0
  }

  predicate OutcomeReady(d: Desired, o: Outcome) {
    o.Done? && ChildReady(d.key.kind, o.child)
  }

  predicate AllReady(ds: seq<Desired>, outcomes: seq<Outcome>)
    requires |ds| == |outcomes|
  {
    forall i :: 0 <= i < |ds| ==> OutcomeReady(ds[i], outcomes[i])
  }

  predicate Started(x: Job, cluster: string) {
    cluster in x.statuses && x.statuses[cluster].state == RolloutState.Succeeded
  }

  /** What a read of a work's current state yields for the summary: the work, if it is the set's and up to date. */
  function ReadWork(store: Store, id: SetId, d: Desired, faults: set<Call>): Outcome {
    if GetChild(d.key) in faults || d.key !in store || !OwnedBySet(id, store[d.key].labels)
        || !ChildMatches(store[d.key], d)
    then Outcome.Failed else Done(store[d.key])
  }

  function ReadWorks(store: Store, id: SetId, works: seq<SliceWork>, faults: set<Call>): (r: seq<Outcome>)
    ensures |r| == |works|
  {
    seq(|works|, i requires 0 <= i < |works| => ReadWork(store, id, works[i].work, faults))
  }

  function Contribution(x: Job, works: seq<SliceWork>, outcomes: seq<Outcome>): Option<Summary>
    requires |works| == |outcomes|
  {
    if x.rbac then Some(Plus(Summary(|works|, 0, 0, 0, 0, 0, 0), SumWorks(works, outcomes))) else None
  }

  /** A cluster inside the window whose namespace exists: all its children are ensured. */
  function ApplyCluster(h: HubState, cluster: string, x: Job): (HubState, Report) {
    var ds := ChildrenOf(x, cluster);
    var access := x.access(cluster);
    var (after, outcomes) := EnsureAll(h, x.id, ds, x.faults);
    (after, Report(
       !x.failed(cluster) && AllReady(ds, outcomes),
       x.selector && AllReady(access, outcomes[..|access|]),
       CountConflicts(outcomes), CountFailures(outcomes) + if x.failed(cluster) then 1 else 0,
       x.names(cluster),
       Contribution(x, x.works(cluster), outcomes[|access| + 1..])))
  }

  function StepCluster(h: HubState, cluster: string, x: Job): (HubState, Report) {
    if cluster !in x.window then
      if Started(x, cluster) then
        (h, Report(true, x.selector, 0, 0, {},
                   Contribution(x, x.works(cluster), ReadWorks(h.store, x.id, x.works(cluster), x.faults))))
      else (h, Report(false, false, 0, 0, {}, None))
    else if GetClusterNamespace(cluster) in x.faults then (h, Report(false, false, 0, 1, {}, None))
    else ApplyCluster(h, cluster, x)
  }

  // ---------------------------------------------------------------- all clusters

  datatype Tally = Tally(
    ready: nat, accessReady: nat, conflicts: nat, failures: nat,
    works: map<string, set<string>>, summary: Option<Summary>, byRef: map<string, Summary>)

  const EMPTY := Tally(0, 0, 0, 0, map[], None, map[])

  function AddReport(t: Tally, cluster: string, refs: seq<string>, r: Report): Tally {
    Tally(
      t.ready + Bit(r.ready), t.accessReady + Bit(r.accessReady), t.conflicts + r.conflicts, t.failures + r.failures,
      t.works[cluster := r.works],
      if r.summary.None? then t.summary else Some(Plus(GetOr(t.summary), r.summary.value)),
      if r.summary.None? then t.byRef else AddToRefs(t.byRef, refs, r.summary.value))
  }

  function FanOutAll(h: HubState, clusters: seq<string>, x: Job): (HubState, Tally) {
    if |clusters| == 0 then (h, EMPTY)
    else
      var c := clusters[|clusters| - 1];
      var (h1, t) := FanOutAll(h, clusters[..|clusters| - 1], x);
      var (h2, r) := StepCluster(h1, c, x);
      (h2, AddReport(t, c, RefsOf(x, c), r))
  }

  /** What each cluster's step reports when it is looked at on the hub the pass started from. */
  function Reports(h: HubState, clusters: seq<string>, x: Job): (r: seq<Report>)
    ensures |r| == |clusters|
    ensures forall i :: 0 <= i < |r| ==> r[i] == StepCluster(h, clusters[i], x).1
  {
    seq(|clusters|, i requires 0 <= i < |clusters| => StepCluster(h, clusters[i], x).1)
  }

  function Total(clusters: seq<string>, reports: seq<Report>, x: Job): Tally
    requires |clusters| == |reports|
  {
    if |clusters| == 0 then EMPTY
    else
      var n := |clusters| - 1;
      AddReport(Total(clusters[..n], reports[..n], x), clusters[n], RefsOf(x, clusters[n]), reports[n])
  }

  // ---------------------------------------------------------------- clusters do not see each other

  /** Two hubs hold the same children in a cluster. */
  ghost predicate Agree(a: Store, b: Store, cluster: string) {
    forall k: Key | k.cluster == cluster :: Get(a, k) == Get(b, k)
  }

  ghost predicate Has(ds: seq<Desired>, k: Key) {
    exists d | d in ds :: d.key == k
  }

  /** The job's tables describe each cluster consistently: own children in their cluster, under exactly the listed
      names. */
  ghost predicate ClusterOk(x: Job, cluster: string) {
    && (forall d | d in ChildrenOf(x, cluster) ::
          d.key.cluster == cluster && Owner(d.labels) == Some(x.id)
          && (if d.key.kind.AccountKind? then d.key.name in x.accounts else d.key.name in x.names(cluster)))
    && (forall n | n in x.accounts :: Has(ChildrenOf(x, cluster), Key(AccountKind, cluster, n)))
    && (forall n | n in x.names(cluster) :: Has(ChildrenOf(x, cluster), Key(WorkKind, cluster, n)))
    && (forall w | w in x.works(cluster) ::
          w.work.key.kind.WorkKind? && SPEC_HASH in w.work.annotations && w.work.annotations[SPEC_HASH] == w.hash)
  }

  ghost predicate JobOk(x: Job) {
    forall c :: ClusterOk(x, c)
  }

  lemma {:induction false} EnsureAllLocal(h: HubState, g: HubState, id: SetId, ds: seq<Desired>, faults: set<Call>,
                                          cluster: string)
    requires Agree(h.store, g.store, cluster) && forall d | d in ds :: d.key.cluster == cluster
    ensures EnsureAll(h, id, ds, faults).1 == EnsureAll(g, id, ds, faults).1
    ensures Agree(EnsureAll(h, id, ds, faults).0.store, EnsureAll(g, id, ds, faults).0.store, cluster)
  {
    var n := |ds| - 1;
    if n >= 0 {
      EnsureAllLocal(h, g, id, ds[..n], faults, cluster);
      EnsureLocal(EnsureAll(h, id, ds[..n], faults).0, EnsureAll(g, id, ds[..n], faults).0, id, ds[n], faults);
      EnsureLocal(EnsureAll(g, id, ds[..n], faults).0, EnsureAll(h, id, ds[..n], faults).0, id, ds[n], faults);
    }
  }

  /** One cluster's step reads and writes that cluster only. */
  lemma StepLocal(h: HubState, g: HubState, cluster: string, x: Job)
    requires ClusterOk(x, cluster) && Agree(h.store, g.store, cluster)
    ensures StepCluster(h, cluster, x).1 == StepCluster(g, cluster, x).1
    ensures Agree(StepCluster(h, cluster, x).0.store, StepCluster(g, cluster, x).0.store, cluster)
  {
    hide Owner, AllReady, OwnedBySet, ChildMatches, SumWorks, CountConflicts, CountFailures, Contribution;
    if cluster in x.window {
      EnsureAllLocal(h, g, x.id, ChildrenOf(x, cluster), x.faults, cluster);
    } else {
      var works := x.works(cluster);
      forall i | 0 <= i < |works|
        ensures ReadWork(h.store, x.id, works[i].work, x.faults) == ReadWork(g.store, x.id, works[i].work, x.faults)
      {
        assert works[i].work == ChildrenOf(x, cluster)[|x.access(cluster)| + 1 + i];
        assert Get(h.store, works[i].work.key) == Get(g.store, works[i].work.key);
      }
      assert ReadWorks(h.store, x.id, works, x.faults) == ReadWorks(g.store, x.id, works, x.faults);
    }
  }

  /** The children a pass may write: desired ones, in clusters of the window whose namespace exists. */
  ghost predicate MayEnsure(x: Job, k: Key) {
    k.cluster in x.window && GetClusterNamespace(k.cluster) !in x.faults && Has(ChildrenOf(x, k.cluster), k)
  }

  lemma StepFrame(h: HubState, cluster: string, x: Job)
    requires ClusterOk(x, cluster)
    ensures forall k: Key | k.cluster != cluster :: Get(StepCluster(h, cluster, x).0.store, k) == Get(h.store, k)
    ensures h.writes <= StepCluster(h, cluster, x).0.writes
    ensures forall w | w in StepCluster(h, cluster, x).0.writes - h.writes ::
            !w.Delete? && w.key.cluster == cluster && MayEnsure(x, w.key)
  {
    hide Owner, AllReady, Contribution;
    EnsureAllFrame(h, x.id, ChildrenOf(x, cluster), x.faults);
  }

  ghost predicate NoRepeats(clusters: seq<string>) {
    forall i, j :: 0 <= i < j < |clusters| ==> clusters[i] != clusters[j]
  }

  /** Cluster by cluster, `after` is what that cluster's own step makes of `h`; other clusters are as they were. */
  ghost predicate SideBySide(h: HubState, after: Store, clusters: seq<string>, x: Job) {
    forall c :: Agree(after, Expected(h, clusters, x, c), c)
  }

  ghost function Expected(h: HubState, clusters: seq<string>, x: Job, cluster: string): Store {
    if cluster in clusters then StepCluster(h, cluster, x).0.store else h.store
  }

  lemma SideBySideStep(h: HubState, before: HubState, after: HubState, init: seq<string>, c: string, x: Job)
    requires SideBySide(h, before.store, init, x) && c !in init
    requires forall b | b != c :: Agree(after.store, before.store, b)
    requires Agree(after.store, StepCluster(h, c, x).0.store, c)
    ensures SideBySide(h, after.store, init + [c], x)
  {
    forall b ensures Agree(after.store, Expected(h, init + [c], x, b), b) {
      assert b in init + [c] <==> b in init || b == c;
      if b != c {
        assert Expected(h, init + [c], x, b) == Expected(h, init, x, b);
        assert Agree(before.store, Expected(h, init, x, b), b) && Agree(after.store, before.store, b);
      }
    }
  }

  /** The whole fan-out is its clusters' steps side by side: the same tally, and each cluster as its own step leaves
      it. */
  lemma {:induction false} FanOutSplits(h: HubState, clusters: seq<string>, x: Job)
    requires NoRepeats(clusters) && JobOk(x)
    ensures FanOutAll(h, clusters, x).1 == Total(clusters, Reports(h, clusters, x), x)
    ensures SideBySide(h, FanOutAll(h, clusters, x).0.store, clusters, x)
  {
    hide StepCluster, AddReport, ClusterOk;
    var n := |clusters| - 1;
    if n >= 0 {
      var init, c := clusters[..n], clusters[n];
      FanOutSplits(h, init, x);
      var before := FanOutAll(h, init, x).0;
      assert ClusterOk(x, c);
      assert Agree(before.store, Expected(h, init, x, c), c);
      StepLocal(before, h, c, x);
      AgreeElsewhere(before, c, x);
      SideBySideStep(h, before, StepCluster(before, c, x).0, init, c, x);
      assert Reports(h, clusters, x)[..n] == Reports(h, init, x);
      assert init + [c] == clusters;
    }
  }

  lemma AgreeElsewhere(h: HubState, cluster: string, x: Job)
    requires ClusterOk(x, cluster)
    ensures forall b | b != cluster :: Agree(StepCluster(h, cluster, x).0.store, h.store, b)
  {
    StepFrame(h, cluster, x);
  }

  /** Every write of the fan-out creates or patches a desired child in a cluster of the window. */
  lemma {:induction false} FanOutWrites(h: HubState, clusters: seq<string>, x: Job)
    requires JobOk(x)
    ensures h.writes <= FanOutAll(h, clusters, x).0.writes
    ensures forall w | w in FanOutAll(h, clusters, x).0.writes - h.writes ::
            !w.Delete? && w.key.cluster in clusters && MayEnsure(x, w.key)
  {
    var n := |clusters| - 1;
    if n >= 0 {
      FanOutWrites(h, clusters[..n], x);
      assert ClusterOk(x, clusters[n]);
      StepFrame(FanOutAll(h, clusters[..n], x).0, clusters[n], x);
    }
  }

  /** What a cluster's step writes on any hub that holds the same children there, the whole fan-out writes. */
  lemma {:induction false} FanOutWritesAll(h: HubState, clusters: seq<string>, x: Job, c: string, w: Write)
    requires NoRepeats(clusters) && JobOk(x) && c in clusters
    requires forall g: HubState | Agree(g.store, h.store, c) :: w in StepCluster(g, c, x).0.writes
    ensures w in FanOutAll(h, clusters, x).0.writes
  {
    hide StepCluster, ClusterOk;
    var n := |clusters| - 1;
    var before := FanOutAll(h, clusters[..n], x).0;
    assert ClusterOk(x, clusters[n]);
    if clusters[n] == c {
      FanOutSplits(h, clusters[..n], x);
      assert Agree(before.store, Expected(h, clusters[..n], x, c), c);
    } else {
      FanOutWritesAll(h, clusters[..n], x, c, w);
      StepFrame(before, clusters[n], x);
    }
  }

  lemma StepOnlyOwn(h: HubState, cluster: string, x: Job)
    requires StoreOk(h.store) && ClusterOk(x, cluster)
    ensures OnlyOwn(x.id, h, StepCluster(h, cluster, x).0) && StoreOk(StepCluster(h, cluster, x).0.store)
  {
    hide Owner, ChildrenOf, OnlyOwn, StoreOk, EnsureAll;
    EnsureAllOnlyOwn(h, x.id, ChildrenOf(x, cluster), x.faults);
    OnlyOwnReflexive(x.id, h);
  }

  /** The fan-out of one set leaves every other object on the hub alone. */
  lemma {:induction false} FanOutOnlyOwn(h: HubState, clusters: seq<string>, x: Job)
    requires StoreOk(h.store) && JobOk(x)
    ensures OnlyOwn(x.id, h, FanOutAll(h, clusters, x).0) && StoreOk(FanOutAll(h, clusters, x).0.store)
  {
    var n := |clusters| - 1;
    if n >= 0 {
      FanOutOnlyOwn(h, clusters[..n], x);
      var before := FanOutAll(h, clusters[..n], x).0;
      assert ClusterOk(x, clusters[n]);
      StepOnlyOwn(before, clusters[n], x);
      OnlyOwnTransitive(x.id, h, before, FanOutAll(h, clusters, x).0);
    }
  }

  lemma {:induction false} NoneConflict(outcomes: seq<Outcome>)
    requires forall i :: 0 <= i < |outcomes| ==> !outcomes[i].Conflict?
    ensures CountConflicts(outcomes) == 0
  {
    var n := |outcomes| - 1;
    if n >= 0 { NoneConflict(outcomes[..n]); }
  }
}
