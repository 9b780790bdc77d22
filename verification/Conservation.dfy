/** The RBAC summaries of a pass: what is counted where, and that nothing is lost or counted beyond its refs. */
module Conservation {
  import opened Model
  import opened Metadata
  import opened Children
  import opened Hub
  import opened FanOut

  // ---------------------------------------------------------------- sums

  /** What one report adds to the global summary. */
  function Share(r: Report): Summary {
    GetOr(r.summary)
  }

  function SumShares(reports: seq<Report>): Summary {
    if |reports| == 0 then ZERO else Plus(SumShares(reports[..|reports| - 1]), Share(reports[|reports| - 1]))
  }

  /** The shares of the clusters that `ref` selects. */
  function SumSelected(clusters: seq<string>, reports: seq<Report>, x: Job, ref: string): Summary
    requires |clusters| == |reports|
  {
    if |clusters| == 0 then ZERO
    else
      var n := |clusters| - 1;
      var rest := SumSelected(clusters[..n], reports[..n], x, ref);
      if ref in RefsOf(x, clusters[n]) then Plus(rest, Share(reports[n])) else rest
  }

  function OfRef(byRef: map<string, Summary>, ref: string): Summary {
    if ref in byRef then byRef[ref] else ZERO
  }

  ghost predicate NoRepeatedRefs(x: Job) {
    forall c | c in x.refs :: NoRepeats(x.refs[c])
  }

  lemma {:induction false} AddedToRef(byRef: map<string, Summary>, refs: seq<string>, s: Summary, ref: string)
    requires NoRepeats(refs)
    ensures OfRef(AddToRefs(byRef, refs, s), ref) == if ref in refs then Plus(OfRef(byRef, ref), s)
            else OfRef(byRef, ref)
  {
    hide Plus;
    var n := |refs| - 1;
    if n >= 0 {
      AddedToRef(byRef, refs[..n], s, ref);
      assert ref in refs <==> ref in refs[..n] || ref == refs[n];
    }
  }

  lemma PlusLaws(a: Summary, b: Summary, c: Summary, d: Summary)
    ensures Plus(a, ZERO) == a && Plus(Plus(a, b), c) == Plus(Plus(a, c), b)
    ensures Plus(Plus(a, b), Plus(c, d)) == Plus(Plus(a, c), Plus(b, d))
  {
  }

  /** The global summary is the sum of one share per cluster, a ref's summary the sum of the shares of exactly its
      own clusters. */
  lemma {:induction false} TotalSummaries(clusters: seq<string>, reports: seq<Report>, x: Job, ref: string)
    requires |clusters| == |reports| && NoRepeatedRefs(x)
    ensures var t := Total(clusters, reports, x);
            GetOr(t.summary) == SumShares(reports) && OfRef(t.byRef, ref) == SumSelected(clusters, reports, x, ref)
  {
    hide AddToRefs, Plus;
    var n := |clusters| - 1;
    if n >= 0 {
      TotalSummaries(clusters[..n], reports[..n], x, ref);
      var before := Total(clusters[..n], reports[..n], x);
      PlusLaws(GetOr(before.summary), ZERO, ZERO, ZERO);
      PlusLaws(OfRef(before.byRef, ref), ZERO, ZERO, ZERO);
      if reports[n].summary.Some? {
        AddedToRef(before.byRef, RefsOf(x, clusters[n]), reports[n].summary.value, ref);
      }
    }
  }

  // ---------------------------------------------------------------- all refs together

  function Scaled(n: nat, s: Summary): Summary {
    if n == 0 then ZERO else Plus(Scaled(n - 1, s), s)
  }

  function SumOverRefs(refs: seq<string>, clusters: seq<string>, reports: seq<Report>, x: Job): Summary
    requires |clusters| == |reports|
  {
    if |refs| == 0 then ZERO
    else Plus(SumOverRefs(refs[..|refs| - 1], clusters, reports, x),
              SumSelected(clusters, reports, x, refs[|refs| - 1]))
  }

  /** How many of `refs` select a cluster. */
  function Selecting(refs: seq<string>, x: Job, cluster: string): nat {
    if |refs| == 0 then 0
    else Selecting(refs[..|refs| - 1], x, cluster) + if refs[|refs| - 1] in RefsOf(x, cluster) then 1 else 0
  }

  function SumWeighted(refs: seq<string>, clusters: seq<string>, reports: seq<Report>, x: Job): Summary
    requires |clusters| == |reports|
  {
    if |clusters| == 0 then ZERO
    else
      var n := |clusters| - 1;
      Plus(SumWeighted(refs, clusters[..n], reports[..n], x),
           Scaled(Selecting(refs, x, clusters[n]), Share(reports[n])))
  }

  lemma {:induction false} OverRefsStep(refs: seq<string>, clusters: seq<string>, reports: seq<Report>, x: Job)
    requires |clusters| == |reports| > 0
    ensures var n := |clusters| - 1;
            SumOverRefs(refs, clusters, reports, x)
            == Plus(SumOverRefs(refs, clusters[..n], reports[..n], x),
                    Scaled(Selecting(refs, x, clusters[n]), Share(reports[n])))
  {
    hide RefsOf, Plus, Share;
    var n, k := |clusters| - 1, |refs| - 1;
    PlusLaws(ZERO, ZERO, ZERO, ZERO);
    if k >= 0 {
      OverRefsStep(refs[..k], clusters, reports, x);
      PlusLaws(SumOverRefs(refs[..k], clusters[..n], reports[..n], x),
               Scaled(Selecting(refs[..k], x, clusters[n]), Share(reports[n])),
               SumSelected(clusters[..n], reports[..n], x, refs[k]), Share(reports[n]));
    }
  }

  /** Added up over all refs, each cluster's share counts once for every ref that selects it. */
  lemma {:induction false} RefsShareEachCluster(refs: seq<string>, clusters: seq<string>, reports: seq<Report>, x: Job)
    requires |clusters| == |reports|
    ensures SumOverRefs(refs, clusters, reports, x) == SumWeighted(refs, clusters, reports, x)
  {
    var n := |clusters| - 1;
    if n >= 0 {
      RefsShareEachCluster(refs, clusters[..n], reports[..n], x);
      OverRefsStep(refs, clusters, reports, x);
    } else {
      NothingSelected(refs, clusters, reports, x);
    }
  }

  lemma {:induction false} NothingSelected(refs: seq<string>, clusters: seq<string>, reports: seq<Report>, x: Job)
    requires |clusters| == |reports| == 0
    ensures SumOverRefs(refs, clusters, reports, x) == ZERO
  {
    if |refs| > 0 { NothingSelected(refs[..|refs| - 1], clusters, reports, x); }
  }

  // ---------------------------------------------------------------- bounds

  ghost predicate Sound(s: Summary) {
    && 0 <= s.applied <= s.total && 0 <= s.available <= s.total && 0 <= s.degraded <= s.total
        && 0 <= s.progressing <= s.total
    && s.updated == s.total <= s.desiredTotal
  }

  lemma DoneMatches(h: HubState, id: SetId, d: Desired, faults: set<Call>)
    requires Ensure(h, id, d, faults).1.Done?
    ensures Ensure(h, id, d, faults).1.child.annotations == d.annotations
  {
    hide OwnedBySet, SpecEqual;
  }

  lemma {:induction false} AllDoneMatch(h: HubState, id: SetId, ds: seq<Desired>, faults: set<Call>, i: nat)
    requires i < |ds| && EnsureAll(h, id, ds, faults).1[i].Done?
    ensures EnsureAll(h, id, ds, faults).1[i].child.annotations == ds[i].annotations
  {
    hide Ensure;
    var n := |ds| - 1;
    if i < n {
      AllDoneMatch(h, id, ds[..n], faults, i);
    } else {
      DoneMatches(EnsureAll(h, id, ds[..n], faults).0, id, ds[n], faults);
    }
  }

  ghost predicate Carried(works: seq<SliceWork>, outcomes: seq<Outcome>)
    requires |works| == |outcomes|
  {
    forall i :: 0 <= i < |works| && outcomes[i].Done? ==>
      SPEC_HASH in outcomes[i].child.annotations && outcomes[i].child.annotations[SPEC_HASH] == works[i].hash
  }

  lemma {:induction false} SumWorksSound(works: seq<SliceWork>, outcomes: seq<Outcome>)
    requires |works| == |outcomes| && Carried(works, outcomes)
    ensures var s := SumWorks(works, outcomes);
            s.desiredTotal == 0 && s.total <= |works| && Sound(s.(desiredTotal := |works|))
  {
    hide WorkConditionTrue;
    var n := |works| - 1;
    if n >= 0 {
      assert Carried(works[..n], outcomes[..n]) by {
        assert forall i :: 0 <= i < n ==> works[..n][i] == works[i] && outcomes[..n][i] == outcomes[i];
      }
      SumWorksSound(works[..n], outcomes[..n]);
    }
  }

  /** The works that were obtained and say `kind` of their current generation. */
  ghost function Saying(outcomes: seq<Outcome>, kind: string): set<nat> {
    set i: nat | i < |outcomes| && outcomes[i].Done? && WorkConditionTrue(outcomes[i].child, kind)
  }

  ghost function Obtained(outcomes: seq<Outcome>): set<nat> {
    set i: nat | i < |outcomes| && outcomes[i].Done?
  }

  lemma SayingStep(outcomes: seq<Outcome>, kind: string)
    requires |outcomes| > 0
    ensures var n, last := |outcomes| - 1, outcomes[|outcomes| - 1];
            |Saying(outcomes, kind)|
                == |Saying(outcomes[..n], kind)| + Bit(last.Done? && WorkConditionTrue(last.child, kind))
            && |Obtained(outcomes)| == |Obtained(outcomes[..n])| + Bit(last.Done?)
  {
    hide WorkConditionTrue;
    var n, last := |outcomes| - 1, outcomes[|outcomes| - 1];
    assert Saying(outcomes, kind) == if last.Done? && WorkConditionTrue(last.child, kind)
        then Saying(outcomes[..n], kind) + {n} else Saying(outcomes[..n], kind);
    assert Obtained(outcomes) == if last.Done? then Obtained(outcomes[..n]) + {n} else Obtained(outcomes[..n]);
  }

  /** Each count of the summary is the number of works it speaks of. */
  lemma {:induction false} CountedExactly(works: seq<SliceWork>, outcomes: seq<Outcome>)
    requires |works| == |outcomes|
    ensures var s := SumWorks(works, outcomes);
            && s.total == |Obtained(outcomes)|
            && s.applied == |Saying(outcomes, WORK_APPLIED)| && s.available == |Saying(outcomes, WORK_AVAILABLE)|
            && s.degraded == |Saying(outcomes, WORK_DEGRADED)| && s.progressing == |Saying(outcomes, WORK_PROGRESSING)|
  {
    hide WorkConditionTrue, Saying, Obtained;
    var n := |works| - 1;
    if n >= 0 {
      CountedExactly(works[..n], outcomes[..n]);
      SayingStep(outcomes, WORK_APPLIED);
      SayingStep(outcomes, WORK_AVAILABLE);
      SayingStep(outcomes, WORK_DEGRADED);
      SayingStep(outcomes, WORK_PROGRESSING);
    } else {
      NothingSaid(outcomes);
    }
  }

  lemma NothingSaid(outcomes: seq<Outcome>)
    requires |outcomes| == 0
    ensures Obtained(outcomes) == {} && forall kind :: Saying(outcomes, kind) == {}
  {
  }

  /** As many works are available as there are slices exactly if every slice's work was obtained and is available. */
  lemma {:induction false} AllAvailable(works: seq<SliceWork>, outcomes: seq<Outcome>)
    requires |works| == |outcomes|
    ensures SumWorks(works, outcomes).available <= |works|
    ensures SumWorks(works, outcomes).available == |works| <==> forall i ::
            0 <= i < |works| ==> outcomes[i].Done? && WorkAvailable(outcomes[i].child)
  {
    hide WorkConditionTrue;
    var n := |works| - 1;
    if n >= 0 {
      AllAvailable(works[..n], outcomes[..n]);
      assert forall i :: 0 <= i < n ==> outcomes[..n][i] == outcomes[i];
    }
  }

  /** The sum is fully available exactly if every share is. */
  lemma {:induction false} SharesFull(reports: seq<Report>)
    requires forall r | r in reports :: Sound(Share(r))
    ensures var s := SumShares(reports);
            s.available <= s.desiredTotal
            && (s.available == s.desiredTotal <==> forall r | r in reports ::
                Share(r).available == Share(r).desiredTotal)
  {
    hide Share;
    var n := |reports| - 1;
    if n >= 0 {
      SharesFull(reports[..n]);
      assert reports[n] in reports;
      assert forall r :: r in reports <==> r in reports[..n] || r == reports[n];
    }
  }

  /** Whatever path a cluster takes, its share is sound. */
  lemma StepSound(h: HubState, cluster: string, x: Job)
    requires ClusterOk(x, cluster)
    ensures Sound(Share(StepCluster(h, cluster, x).1))
  {
    hide AllReady, CountConflicts, CountFailures, ClusterOk, ReadWorks, EnsureAll, SumWorks, Carried;
    var works := x.works(cluster);
    var applied := EnsureAll(h, x.id, ChildrenOf(x, cluster), x.faults).1[|x.access(cluster)| + 1..];
    var seen := ReadWorks(h.store, x.id, works, x.faults);
    AppliedCarried(h, cluster, x);
    ReadsCarried(h, cluster, x);
    SumWorksSound(works, applied);
    SumWorksSound(works, seen);
  }

  lemma AppliedCarried(h: HubState, cluster: string, x: Job)
    requires ClusterOk(x, cluster)
    ensures Carried(x.works(cluster), EnsureAll(h, x.id, ChildrenOf(x, cluster), x.faults).1[|x.access(cluster)| + 1..])
  {
    hide Owner, EnsureAll;
    var ds, works, n := ChildrenOf(x, cluster), x.works(cluster), |x.access(cluster)| + 1;
    var outcomes := EnsureAll(h, x.id, ds, x.faults).1;
    forall i | 0 <= i < |works| && outcomes[n..][i].Done?
      ensures SPEC_HASH in outcomes[n..][i].child.annotations
              && outcomes[n..][i].child.annotations[SPEC_HASH] == works[i].hash
    {
      assert ds[n + i] == works[i].work && works[i] in works;
      AllDoneMatch(h, x.id, ds, x.faults, n + i);
    }
  }

  lemma ReadsCarried(h: HubState, cluster: string, x: Job)
    requires ClusterOk(x, cluster)
    ensures Carried(x.works(cluster), ReadWorks(h.store, x.id, x.works(cluster), x.faults))
  {
    hide Owner, OwnedBySet, SpecEqual;
    var works := x.works(cluster);
    forall i | 0 <= i < |works| && ReadWork(h.store, x.id, works[i].work, x.faults).Done?
      ensures var c := ReadWork(h.store, x.id, works[i].work, x.faults).child;
              SPEC_HASH in c.annotations && c.annotations[SPEC_HASH] == works[i].hash
    {
      assert works[i] in works;
    }
  }

  lemma {:induction false} SumsSound(clusters: seq<string>, reports: seq<Report>, x: Job, ref: string)
    requires |clusters| == |reports| && forall r | r in reports :: Sound(Share(r))
    ensures Sound(SumShares(reports)) && Sound(SumSelected(clusters, reports, x, ref))
  {
    hide Share;
    var n := |clusters| - 1;
    if n >= 0 {
      SumsSound(clusters[..n], reports[..n], x, ref);
      assert reports[n] in reports;
    }
  }

  lemma ReportsSound(h: HubState, clusters: seq<string>, x: Job)
    requires JobOk(x)
    ensures forall r | r in Reports(h, clusters, x) :: Sound(Share(r))
  {
    hide Sound, StepCluster, ClusterOk, Share;
    var reports := Reports(h, clusters, x);
    forall i | 0 <= i < |reports| ensures Sound(Share(reports[i])) {
      assert ClusterOk(x, clusters[i]);
      StepSound(h, clusters[i], x);
    }
  }

  /** The summaries of a fan-out, as seen from the hub it started on: conserved over clusters and refs, and within
      bounds. */
  lemma SummariesConserved(h: HubState, clusters: seq<string>, x: Job, ref: string)
    requires NoRepeats(clusters) && JobOk(x) && NoRepeatedRefs(x)
    ensures var t, reports := FanOutAll(h, clusters, x).1, Reports(h, clusters, x);
            && GetOr(t.summary) == SumShares(reports) && OfRef(t.byRef, ref) == SumSelected(clusters, reports, x, ref)
            && Sound(GetOr(t.summary)) && Sound(OfRef(t.byRef, ref))
  {
    hide Sound, SumShares, SumSelected, StepCluster, ClusterOk, Share, NoRepeatedRefs;
    var reports := Reports(h, clusters, x);
    FanOutSplits(h, clusters, x);
    TotalSummaries(clusters, reports, x, ref);
    ReportsSound(h, clusters, x);
    SumsSound(clusters, reports, x, ref);
  }
}
