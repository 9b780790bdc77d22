/** The fan-out as the controller runs it: one loop over the clusters, writing through the client and counting as it
    goes. */
module FanOutLoop {
  import opened Model
  import opened Hub
  import opened FanOut

  // ---------------------------------------------------------------- counting step by step

  /** Adding to the global summary and to the summary of every ref of a cluster. */
  function Count(t: Tally, refs: seq<string>, s: Summary): Tally {
    t.(summary := Some(Plus(GetOr(t.summary), s)), byRef := AddToRefs(t.byRef, refs, s))
  }

  lemma {:induction false} AddToRefCommutes(byRef: map<string, Summary>, r: string, a: Summary, refs: seq<string>,
                                            b: Summary)
    ensures AddToRefs(AddToRef(byRef, r, a), refs, b) == AddToRef(AddToRefs(byRef, refs, b), r, a)
  {
    var n := |refs| - 1;
    if n >= 0 {
      AddToRefCommutes(byRef, r, a, refs[..n], b);
      AddTwoRefs(AddToRefs(byRef, refs[..n], b), r, a, refs[n], b);
    }
  }

  lemma AddTwoRefs(byRef: map<string, Summary>, q: string, a: Summary, r: string, b: Summary)
    ensures AddToRef(AddToRef(byRef, q, a), r, b) == AddToRef(AddToRef(byRef, r, b), q, a)
  {
    if q != r { assert byRef[q := AddToRef(byRef, q, a)[q]][r := AddToRef(byRef, r, b)[r]]
        == byRef[r := AddToRef(byRef, r, b)[r]][q := AddToRef(byRef, q, a)[q]]; }
  }

  lemma AddToRefTwice(byRef: map<string, Summary>, r: string, a: Summary, b: Summary)
    ensures AddToRef(AddToRef(byRef, r, a), r, b) == AddToRef(byRef, r, Plus(a, b))
  {
  }

  /** Counting twice is counting the sum once, so the order of the additions does not matter. */
  lemma {:induction false} AddToRefsTwice(byRef: map<string, Summary>, refs: seq<string>, a: Summary, b: Summary)
    ensures AddToRefs(AddToRefs(byRef, refs, a), refs, b) == AddToRefs(byRef, refs, Plus(a, b))
  {
    hide Plus, AddToRef;
    var n := |refs| - 1;
    if n >= 0 {
      AddToRefsTwice(byRef, refs[..n], a, b);
      AddToRefCommutes(AddToRefs(byRef, refs[..n], a), refs[n], a, refs[..n], b);
      AddToRefTwice(AddToRefs(AddToRefs(byRef, refs[..n], a), refs[..n], b), refs[n], a, b);
    }
  }

  method AddToEachRef(byRef: map<string, Summary>, refs: seq<string>, s: Summary) returns (after: map<string, Summary>)
    ensures after == AddToRefs(byRef, refs, s)
  {
    after := byRef;
    for i := 0 to |refs|
      invariant after == AddToRefs(byRef, refs[..i], s)
    {
      assert refs[..i + 1][..i] == refs[..i];
      after := AddToRef(after, refs[i], s);
    }
    assert refs[..|refs|] == refs;
  }

  method AddSummary(t: Tally, refs: seq<string>, s: Summary) returns (after: Tally)
    ensures after == Count(t, refs, s)
  {
    var byRef := AddToEachRef(t.byRef, refs, s);
    after := t.(summary := Some(Plus(GetOr(t.summary), s)), byRef := byRef);
  }

  lemma CountTwice(t: Tally, refs: seq<string>, a: Summary, b: Summary)
    ensures Count(Count(t, refs, a), refs, b) == Count(t, refs, Plus(a, b))
  {
    AddToRefsTwice(t.byRef, refs, a, b);
  }

  // ---------------------------------------------------------------- ensuring in pieces

  lemma {:induction false} CountsConcat(a: seq<Outcome>, b: seq<Outcome>)
    ensures CountConflicts(a + b) == CountConflicts(a) + CountConflicts(b)
    ensures CountFailures(a + b) == CountFailures(a) + CountFailures(b)
  {
    var n := |b| - 1;
    if n < 0 {
      assert a + b == a;
    } else {
      CountsConcat(a, b[..n]);
      assert (a + b)[..|a| + n] == a + b[..n];
    }
  }

  lemma AllReadyConcat(a: seq<Desired>, b: seq<Desired>, p: seq<Outcome>, q: seq<Outcome>)
    requires |a| == |p| && |b| == |q|
    ensures AllReady(a + b, p + q) <==> AllReady(a, p) && AllReady(b, q)
  {
    hide OutcomeReady;
    if AllReady(a + b, p + q) {
      forall i | 0 <= i < |a| ensures OutcomeReady(a[i], p[i]) { assert OutcomeReady((a + b)[i], (p + q)[i]); }
      forall i | 0 <= i < |b|
        ensures OutcomeReady(b[i], q[i])
      {
        assert OutcomeReady((a + b)[|a| + i], (p + q)[|a| + i]);
      }
    }
  }

  lemma AllReadyOne(d: Desired, o: Outcome)
    ensures AllReady([d], [o]) <==> OutcomeReady(d, o)
  {
    assert [d][0] == d && [o][0] == o;
  }

  /** What ensuring a few children of one cluster came to. */
  datatype Progress = Progress(ready: bool, conflicts: nat, failures: nat)

  ghost predicate Progressed(before: HubState, after: HubState, id: SetId, ds: seq<Desired>, faults: set<Call>,
                             outcomes: seq<Outcome>, p: Progress) {
    && (after, outcomes) == EnsureAll(before, id, ds, faults)
    && |outcomes| == |ds|
    && p == Progress(AllReady(ds, outcomes), CountConflicts(outcomes), CountFailures(outcomes))
  }

  function Advance(p: Progress, d: Desired, o: Outcome): Progress {
    Progress(p.ready && OutcomeReady(d, o), p.conflicts + (if o.Conflict? then 1 else 0), p.failures + if o.Failed?
        then 1 else 0)
  }

  lemma ProgressStep(before: HubState, middle: HubState, id: SetId, ds: seq<Desired>, faults: set<Call>,
                     outcomes: seq<Outcome>, p: Progress, d: Desired)
    requires Progressed(before, middle, id, ds, faults, outcomes, p)
    ensures var (after, o) := Ensure(middle, id, d, faults);
            Progressed(before, after, id, ds + [d], faults, outcomes + [o], Advance(p, d, o))
  {
    hide Ensure, OutcomeReady, AllReady;
    var o := Ensure(middle, id, d, faults).1;
    assert (ds + [d])[..|ds|] == ds && (outcomes + [o])[..|ds|] == outcomes;
    AllReadyConcat(ds, [d], outcomes, [o]);
    AllReadyOne(d, o);
  }

  lemma ProgressJoin(a: HubState, b: HubState, c: HubState, id: SetId, ds: seq<Desired>, es: seq<Desired>,
                     faults: set<Call>, os: seq<Outcome>, ps: seq<Outcome>, p: Progress, q: Progress)
    requires Progressed(a, b, id, ds, faults, os, p) && Progressed(b, c, id, es, faults, ps, q)
    ensures Progressed(a, c, id, ds + es, faults, os + ps,
                       Progress(p.ready && q.ready, p.conflicts + q.conflicts, p.failures + q.failures))
  {
    hide EnsureAll, AllReady, CountConflicts, CountFailures;
    EnsureAllConcat(a, id, ds, es, faults);
    CountsConcat(os, ps);
    AllReadyConcat(ds, es, os, ps);
  }

  method EnsureEach(hub: Client, id: SetId, ds: seq<Desired>, faults: set<Call>)
    returns (p: Progress, ghost outcomes: seq<Outcome>)
    modifies hub`store, hub`writes
    ensures Progressed(old(hub.View()), hub.View(), id, ds, faults, outcomes, p)
  {
    hide Progressed, Ensure;
    ghost var before := hub.View();
    p, outcomes := Progress(true, 0, 0), [];
    ProgressNothing(before, id, faults);
    for i := 0 to |ds|
      invariant Progressed(before, hub.View(), id, ds[..i], faults, outcomes, p)
    {
      ProgressStep(before, hub.View(), id, ds[..i], faults, outcomes, p, ds[i]);
      assert ds[..i] + [ds[i]] == ds[..i + 1];
      var o := hub.EnsureChild(id, ds[i], faults);
      p := Advance(p, ds[i], o);
      outcomes := outcomes + [o];
    }
    assert ds[..|ds|] == ds;
  }

  lemma ProgressNothing(h: HubState, id: SetId, faults: set<Call>)
    ensures Progressed(h, h, id, [], faults, [], Progress(true, 0, 0))
  {
  }

  // ---------------------------------------------------------------- one cluster

  function Base(works: nat): Summary {
    Summary(works, 0, 0, 0, 0, 0, 0)
  }

  /** The tally once `outcomes` of the first works of a cluster are in. */
  function Counted(t: Tally, x: Job, refs: seq<string>, works: seq<SliceWork>, outcomes: seq<Outcome>): Tally
    requires |outcomes| <= |works|
  {
    if x.rbac then Count(t, refs, Plus(Base(|works|), SumWorks(works[..|outcomes|], outcomes))) else t
  }

  function CountOne(t: Tally, x: Job, refs: seq<string>, w: SliceWork, o: Outcome): Tally {
    if x.rbac && o.Done? then Count(t, refs, SummarizeWork(o.child, w.hash)) else t
  }

  lemma CountedStep(t: Tally, x: Job, refs: seq<string>, works: seq<SliceWork>, outcomes: seq<Outcome>, o: Outcome)
    requires |outcomes| < |works|
    ensures CountOne(Counted(t, x, refs, works, outcomes), x, refs, works[|outcomes|], o)
            == Counted(t, x, refs, works, outcomes + [o])
  {
    hide Count, SummarizeWork;
    var n := |outcomes|;
    var sum := SumWorks(works[..n], outcomes);
    assert works[..n + 1][..n] == works[..n] && (outcomes + [o])[..n] == outcomes;
    if o.Done? {
      CountTwice(t, refs, Plus(Base(|works|), sum), SummarizeWork(o.child, works[n].hash));
    }
  }

  method StartCount(t: Tally, x: Job, refs: seq<string>, works: seq<SliceWork>) returns (after: Tally)
    ensures after == Counted(t, x, refs, works, [])
  {
    after := t;
    if x.rbac {
      after := AddSummary(after, refs, Base(|works|));
      assert Plus(Base(|works|), ZERO) == Base(|works|);
    }
  }

  method CountWork(t: Tally, x: Job, refs: seq<string>, w: SliceWork, o: Outcome) returns (after: Tally)
    ensures after == CountOne(t, x, refs, w, o)
  {
    after := t;
    if x.rbac && o.Done? {
      after := AddSummary(after, refs, SummarizeWork(o.child, w.hash));
    }
  }

  /** The works of the RBAC slices: each is ensured, and summarised if that went well. */
  method EnsureWorks(hub: Client, cluster: string, x: Job, t: Tally)
    returns (after: Tally, p: Progress, ghost outcomes: seq<Outcome>)
    modifies hub`store, hub`writes
    ensures Progressed(old(hub.View()), hub.View(), x.id, Works(x.works(cluster)), x.faults, outcomes, p)
    ensures after == Counted(t, x, RefsOf(x, cluster), x.works(cluster), outcomes)
  {
    hide Progressed, Ensure, Counted, CountOne, Advance;
    var works, refs := x.works(cluster), RefsOf(x, cluster);
    ghost var ds := Works(works);
    ghost var before := hub.View();
    p, outcomes := Progress(true, 0, 0), [];
    ProgressNothing(before, x.id, x.faults);
    after := StartCount(t, x, refs, works);
    for i := 0 to |works|
      invariant |outcomes| == i
      invariant Progressed(before, hub.View(), x.id, ds[..i], x.faults, outcomes, p)
      invariant after == Counted(t, x, refs, works, outcomes)
    {
      ProgressStep(before, hub.View(), x.id, ds[..i], x.faults, outcomes, p, ds[i]);
      assert ds[..i] + [ds[i]] == ds[..i + 1] && ds[i] == works[i].work;
      var o := hub.EnsureChild(x.id, works[i].work, x.faults);
      CountedStep(t, x, refs, works, outcomes, o);
      p := Advance(p, works[i].work, o);
      after := CountWork(after, x, refs, works[i], o);
      outcomes := outcomes + [o];
    }
    assert ds[..|ds|] == ds;
  }

  /** A cluster inside the window: the controller's own access, then the account, then the works. */
  method ApplyTo(hub: Client, cluster: string, x: Job, t: Tally) returns (after: Tally)
    modifies hub`store, hub`writes
    ensures var (h, report) := ApplyCluster(old(hub.View()), cluster, x);
            hub.View() == h && after == AddReport(t, cluster, RefsOf(x, cluster), report)
  {
    hide Ensure, EnsureAll, Counted, AllReady, Plus, SumWorks, CountConflicts, CountFailures, AddToRefs, Contribution,
         Works;
    ghost var before := hub.View();
    var access, accessOutcomes := EnsureEach(hub, x.id, x.access(cluster), x.faults);
    ghost var granted := hub.View();
    var account, accountOutcomes := EnsureEach(hub, x.id, [x.account(cluster)], x.faults);
    ghost var accounted := hub.View();
    var counted, works, outcomes := EnsureWorks(hub, cluster, x, t);
    ProgressJoin(before, granted, accounted, x.id, x.access(cluster), [x.account(cluster)], x.faults, accessOutcomes,
                 accountOutcomes, access, account);
    ProgressJoin(before, accounted, hub.View(), x.id, x.access(cluster) + [x.account(cluster)],
                 Works(x.works(cluster)), x.faults, accessOutcomes + accountOutcomes, outcomes,
                 Progress(access.ready && account.ready, access.conflicts + account.conflicts,
                          access.failures + account.failures),
                 works);
    var failures := access.failures + account.failures + works.failures + if x.failed(cluster) then 1 else 0;
    after := counted.(
      ready := t.ready + Bit(access.ready && account.ready && works.ready && !x.failed(cluster)),
      accessReady := t.accessReady + Bit(x.selector && access.ready),
      conflicts := t.conflicts + access.conflicts + account.conflicts + works.conflicts,
      failures := t.failures + failures,
      works := t.works[cluster := x.names(cluster)]);
    ghost var all := accessOutcomes + accountOutcomes + outcomes;
    assert all[..|x.access(cluster)|] == accessOutcomes && all[|x.access(cluster)| + 1..] == outcomes;
    CountedAll(t, x, cluster, outcomes);
  }

  lemma CountedAll(t: Tally, x: Job, cluster: string, outcomes: seq<Outcome>)
    requires |outcomes| == |x.works(cluster)|
    ensures var works, refs := x.works(cluster), RefsOf(x, cluster);
            var c := Counted(t, x, refs, works, outcomes);
            var s := Contribution(x, works, outcomes);
            c == t.(summary := if s.None? then t.summary else Some(Plus(GetOr(t.summary), s.value)),
                    byRef := if s.None? then t.byRef else AddToRefs(t.byRef, refs, s.value))
  {
    assert x.works(cluster)[..|outcomes|] == x.works(cluster);
  }

  /** A cluster outside the window that has already succeeded: its works are read for the summary, nothing is
      written. */
  method AggregateExisting(store: Store, cluster: string, x: Job, t: Tally) returns (after: Tally)
    ensures after
            == Counted(t, x, RefsOf(x, cluster), x.works(cluster), ReadWorks(store, x.id, x.works(cluster), x.faults))
  {
    hide Counted, CountOne, ReadWork;
    var works, refs := x.works(cluster), RefsOf(x, cluster);
    ghost var seen := ReadWorks(store, x.id, works, x.faults);
    after := StartCount(t, x, refs, works);
    assert seen[..0] == [];
    for i := 0 to |works|
      invariant after == Counted(t, x, refs, works, seen[..i])
    {
      var o := ReadWork(store, x.id, works[i].work, x.faults);
      CountedStep(t, x, refs, works, seen[..i], o);
      assert seen[..i] + [o] == seen[..i + 1];
      after := CountWork(after, x, refs, works[i], o);
    }
    assert seen[..|works|] == seen;
  }

  method ReconcileCluster(hub: Client, cluster: string, x: Job, t: Tally) returns (after: Tally)
    modifies hub`store, hub`writes
    ensures var (h, report) := StepCluster(old(hub.View()), cluster, x);
            hub.View() == h && after == AddReport(t, cluster, RefsOf(x, cluster), report)
  {
    hide ApplyCluster, Counted, Plus, AddToRefs, ReadWorks;
    after := t.(works := t.works[cluster := {}]);
    if cluster !in x.window {
      if Started(x, cluster) {
        after := after.(ready := t.ready + 1, accessReady := t.accessReady + Bit(x.selector));
        CountedAll(after, x, cluster, ReadWorks(hub.store, x.id, x.works(cluster), x.faults));
        after := AggregateExisting(hub.store, cluster, x, after);
      }
      return;
    }
    if GetClusterNamespace(cluster) in x.faults {
      return after.(failures := t.failures + 1);
    }
    after := ApplyTo(hub, cluster, x, t);
  }

  /** All selected clusters, one after the other. */
  method ReconcileClusters(hub: Client, clusters: seq<string>, x: Job) returns (t: Tally)
    modifies hub`store, hub`writes
    ensures (hub.View(), t) == FanOutAll(old(hub.View()), clusters, x)
  {
    hide StepCluster, AddReport;
    ghost var before := hub.View();
    t := EMPTY;
    for i := 0 to |clusters|
      invariant (hub.View(), t) == FanOutAll(before, clusters[..i], x)
    {
      assert clusters[..i + 1][..i] == clusters[..i];
      t := ReconcileCluster(hub, clusters[i], x, t);
    }
    assert clusters[..|clusters|] == clusters;
  }
}
