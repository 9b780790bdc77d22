/** Planning one pass's rollout window over all refs (planRollout). */
module Planning {
  import opened Model
  import Names
  import opened FanOut
  import opened Observation
  import opened Rollout

  datatype Plan = Plan(
    statuses: map<string, ClusterStatus>, window: set<string>, timedOut: set<string>,
    rollouts: map<string, RolloutSummary>, recheck: int)

  const NO_PLAN := Plan(map[], {}, {}, map[], 0)

  function DefaultStrategy(ref: PlacementRef): PlacementRef {
    if ref.strategy == "" then ref.(strategy := "All") else ref
  }

  function StatusOf(store: Store, x: Job, cluster: string): ClusterStatus {
    var seen := ObserveCluster(store, x, cluster).seen;
    ClusterStatus(cluster, seen.state, seen.time)
  }

  predicate CannotObserve(store: Store, x: Job, clusters: seq<string>) {
    exists c | c in clusters :: ObserveCluster(store, x, c).trouble.ReadError?
  }

  function StatusList(store: Store, x: Job, clusters: seq<string>): (r: seq<ClusterStatus>)
    ensures |r| == |clusters|
  {
    seq(|clusters|, i requires 0 <= i < |clusters| => StatusOf(store, x, clusters[i]))
  }

  function StatusMap(store: Store, x: Job, clusters: seq<string>): map<string, ClusterStatus> {
    map c | c in clusters :: StatusOf(store, x, c)
  }

  /** The clusters an SDK answer names; entries without a name are skipped. */
  function NamesIn(entries: seq<ClusterStatus>): set<string> {
    set e | e in entries && e.cluster != "" :: e.cluster
  }

  function Overlay(statuses: map<string, ClusterStatus>, entries: seq<ClusterStatus>): map<string, ClusterStatus> {
    if |entries| == 0 then statuses
    else
      var rest, last := Overlay(statuses, entries[..|entries| - 1]), entries[|entries| - 1];
      if last.cluster == "" then rest else rest[last.cluster := last]
  }

  /** The smallest positive recheck time so far; zero when there is none. */
  function Recheck(sofar: int, next: int): int {
    if next > 0 && (sofar == 0 || next < sofar) then next else sofar
  }

  /** The rollout conditions the ref had in the previous status: the first entry of that name. */
  function PreviousRollout(placements: seq<PlacementStatus>, name: string): Conditions {
    if |placements| == 0 then map[]
    else if placements[0].name == name then RolloutConditions(placements[0].rollout)
    else PreviousRollout(placements[1..], name)
  }

  function RolloutConditions(rollout: Option<RolloutSummary>): Conditions {
    if rollout.Some? then rollout.value.conditions else map[]
  }

  /** Merging the SDK's answer for one ref into the plan. */
  function MergeRef(plan: Plan, observed: map<string, ClusterStatus>, r: RolloutResult, ref: PlacementRef,
                    p: ReplicaSet, now: int): Plan {
    Plan(
      Overlay(Overlay(plan.statuses + observed, r.toRollout), r.timedOut),
      plan.window + NamesIn(r.toRollout), plan.timedOut + NamesIn(r.timedOut),
      plan.rollouts[ref.name := Summarize(|observed|, NamesIn(r.toRollout), NamesIn(r.timedOut),
                                          Overlay(Overlay(observed, r.toRollout), r.timedOut),
                                          PreviousRollout(p.status.placements, ref.name), p.generation, now)],
      Recheck(plan.recheck, r.recheck))
  }

  function PlanRef(plan: Plan, store: Store, x: Job, p: ReplicaSet, ref: PlacementRef, inputs: Inputs): Option<Plan> {
    var groups := inputs.placements(ref.name);
    if groups.None? || groups.value == map[] then
      Some(plan.(rollouts := plan.rollouts[ref.name :=
        Summarize(0, {}, {}, map[], PreviousRollout(p.status.placements, ref.name), p.generation, inputs.now)]))
    else
      var clusters := Names.SortedList(GroupClusters(groups.value));
      if CannotObserve(store, x, clusters) then None
      else match inputs.sdk(DefaultStrategy(ref), StatusList(store, x, clusters))
        case None => None
        case Some(r) => Some(MergeRef(plan, StatusMap(store, x, clusters), r, ref, p, inputs.now))
  }

  function PlanRefs(store: Store, x: Job, p: ReplicaSet, refs: seq<PlacementRef>, inputs: Inputs): Option<Plan> {
    if |refs| == 0 then Some(NO_PLAN)
    else match PlanRefs(store, x, p, refs[..|refs| - 1], inputs)
      case None => None
      case Some(plan) => PlanRef(plan, store, x, p, refs[|refs| - 1], inputs)
  }

  function PlanSummary(plan: Plan, p: ReplicaSet, total: int, now: int): RolloutSummary {
    Summarize(total, plan.window, plan.timedOut, plan.statuses, RolloutConditions(p.status.rollout), p.generation, now)
  }

  // ---------------------------------------------------------------- the loops

  method OverlayEntries(statuses: map<string, ClusterStatus>, entries: seq<ClusterStatus>)
    returns (after: map<string, ClusterStatus>, names: set<string>)
    ensures after == Overlay(statuses, entries) && names == NamesIn(entries)
  {
    after, names := statuses, {};
    for i := 0 to |entries|
      invariant after == Overlay(statuses, entries[..i])
      invariant names == NamesIn(entries[..i])
    {
      var e := entries[i];
      assert entries[..i + 1][..i] == entries[..i];
      assert forall y :: y in entries[..i + 1] <==> y in entries[..i] || y == e;
      if e.cluster != "" {
        after := after[e.cluster := e];
        names := names + {e.cluster};
      }
    }
    assert entries[..|entries|] == entries;
  }

  method ObserveClusters(store: Store, x: Job, clusters: seq<string>)
    returns (aborted: bool, observed: map<string, ClusterStatus>, existing: seq<ClusterStatus>)
    ensures aborted == CannotObserve(store, x, clusters)
    ensures !aborted ==> observed == StatusMap(store, x, clusters) && existing == StatusList(store, x, clusters)
  {
    hide ObserveCluster;
    aborted, observed, existing := false, map[], [];
    for i := 0 to |clusters|
      invariant !CannotObserve(store, x, clusters[..i])
      invariant observed == StatusMap(store, x, clusters[..i])
      invariant existing == StatusList(store, x, clusters[..i])
    {
      var c := clusters[i];
      assert forall y :: y in clusters[..i + 1] <==> y in clusters[..i] || y == c;
      var look := ClusterRolloutStatus(store, x, c);
      if look.trouble.ReadError? {
        aborted := true;
        return;
      }
      observed := observed[c := ClusterStatus(c, look.seen.state, look.seen.time)];
      existing := existing + [ClusterStatus(c, look.seen.state, look.seen.time)];
    }
    assert clusters[..|clusters|] == clusters;
  }

  method PlanRollout(store: Store, x: Job, p: ReplicaSet, inputs: Inputs) returns (r: Option<Plan>)
    ensures r == PlanRefs(store, x, p, p.spec.placementRefs, inputs)
  {
    hide PlanRef;
    var refs := p.spec.placementRefs;
    var plan := NO_PLAN;
    for i := 0 to |refs|
      invariant PlanRefs(store, x, p, refs[..i], inputs) == Some(plan)
    {
      var ref := refs[i];
      assert refs[..i + 1][..i] == refs[..i];
      assert PlanRefs(store, x, p, refs[..i + 1], inputs) == PlanRef(plan, store, x, p, ref, inputs);
      var next := PlanOneRef(plan, store, x, p, ref, inputs);
      if next.None? {
        FailsForGood(store, x, p, refs, inputs, i + 1);
        return None;
      }
      plan := next.value;
    }
    assert refs[..|refs|] == refs;
    return Some(plan);
  }

  lemma {:induction false} FailsForGood(store: Store, x: Job, p: ReplicaSet, refs: seq<PlacementRef>, inputs: Inputs,
                                        n: nat)
    requires n <= |refs| && PlanRefs(store, x, p, refs[..n], inputs).None?
    ensures PlanRefs(store, x, p, refs, inputs).None?
  {
    if n < |refs| {
      assert refs[..|refs| - 1][..n] == refs[..n];
      FailsForGood(store, x, p, refs[..|refs| - 1], inputs, n);
    } else {
      assert refs[..n] == refs;
    }
  }

  method PlanOneRef(plan: Plan, store: Store, x: Job, p: ReplicaSet, ref: PlacementRef, inputs: Inputs)
    returns (r: Option<Plan>)
    ensures r == PlanRef(plan, store, x, p, ref, inputs)
  {
    var groups := inputs.placements(ref.name);
    if groups.None? || groups.value == map[] {
      var nothing := NewRolloutSummary(0, {}, {}, map[], PreviousRollout(p.status.placements, ref.name), p.generation,
                                       inputs.now);
      return Some(plan.(rollouts := plan.rollouts[ref.name := nothing]));
    }
    var clusters := Names.SortedList(GroupClusters(groups.value));
    var aborted, observed, existing := ObserveClusters(store, x, clusters);
    if aborted {
      return None;
    }
    var answer := inputs.sdk(DefaultStrategy(ref), existing);
    if answer.None? {
      return None;
    }
    var refStatuses, rolling := OverlayEntries(observed, answer.value.toRollout);
    var statuses, _ := OverlayEntries(plan.statuses + observed, answer.value.toRollout);
    var late: set<string>;
    refStatuses, late := OverlayEntries(refStatuses, answer.value.timedOut);
    statuses, late := OverlayEntries(statuses, answer.value.timedOut);
    var summary := NewRolloutSummary(|observed|, rolling, late, refStatuses,
                                     PreviousRollout(p.status.placements, ref.name), p.generation, inputs.now);
    return Some(Plan(statuses, plan.window + rolling, plan.timedOut + late, plan.rollouts[ref.name := summary],
                     Recheck(plan.recheck, answer.value.recheck)));
  }

  // ---------------------------------------------------------------- what the plan knows

  /** What is relied on of the SDK: it answers about the clusters it was asked about, and times out with the TimeOut
      state. */
  ghost predicate SdkContract(sdk: RolloutOracle) {
    forall ref, existing | sdk(ref, existing).Some? :: SdkAnswerOk(existing, sdk(ref, existing).value)
  }

  ghost predicate SdkAnswerOk(existing: seq<ClusterStatus>, r: RolloutResult) {
    && NamesIn(r.toRollout) + NamesIn(r.timedOut) <= NamesIn(existing)
    && forall e | e in r.timedOut :: e.state == TimeOut
  }

  /** Every status in the plan is what was observed, unless the cluster is in the window or has timed out. */
  ghost predicate PlanOk(plan: Plan, store: Store, x: Job, selected: set<string>) {
    && plan.statuses.Keys == selected
    && plan.window <= selected && plan.timedOut <= selected
    && forall c | c in plan.statuses && c !in plan.window ::
         plan.statuses[c].state == TimeOut || plan.statuses[c] == StatusOf(store, x, c)
  }

  lemma {:induction false} OverlayKeys(statuses: map<string, ClusterStatus>, entries: seq<ClusterStatus>)
    ensures Overlay(statuses, entries).Keys == statuses.Keys + NamesIn(entries)
    ensures forall c | c in Overlay(statuses, entries) ::
            Overlay(statuses, entries)[c] in entries || (c in statuses && Overlay(statuses, entries)[c] == statuses[c])
    ensures forall c | c in statuses && c !in NamesIn(entries) ::
            c in Overlay(statuses, entries) && Overlay(statuses, entries)[c] == statuses[c]
  {
    var n := |entries| - 1;
    if n >= 0 {
      OverlayKeys(statuses, entries[..n]);
      assert forall e :: e in entries <==> e in entries[..n] || e == entries[n];
    }
  }

  lemma MergeOk(plan: Plan, store: Store, x: Job, selected: set<string>, clusters: seq<string>, r: RolloutResult,
                ref: PlacementRef, p: ReplicaSet, now: int)
    requires PlanOk(plan, store, x, selected) && SdkAnswerOk(StatusList(store, x, clusters), r)
    ensures PlanOk(MergeRef(plan, StatusMap(store, x, clusters), r, ref, p, now), store, x, selected + set c | c
            in clusters)
  {
    hide Summarize, StatusOf, PreviousRollout, Recheck, Overlay, NamesIn;
    var observed := StatusMap(store, x, clusters);
    var first := Overlay(plan.statuses + observed, r.toRollout);
    OverlayKeys(plan.statuses + observed, r.toRollout);
    OverlayKeys(first, r.timedOut);
    ObservedNames(store, x, clusters);
  }

  lemma ObservedNames(store: Store, x: Job, clusters: seq<string>)
    ensures NamesIn(StatusList(store, x, clusters)) <= set c | c in clusters
  {
  }

  lemma {:induction false} PlanRefsOk(store: Store, x: Job, p: ReplicaSet, refs: seq<PlacementRef>, inputs: Inputs)
    requires SdkContract(inputs.sdk) && PlanRefs(store, x, p, refs, inputs).Some?
    ensures PlanOk(PlanRefs(store, x, p, refs, inputs).value, store, x, UnionOf(inputs.placements, refs))
  {
    hide PlanOk, MergeRef, StatusMap, StatusList;
    var n := |refs| - 1;
    if n >= 0 {
      PlanRefsOk(store, x, p, refs[..n], inputs);
      var plan := PlanRefs(store, x, p, refs[..n], inputs).value;
      var groups := inputs.placements(refs[n].name);
      if groups.Some? && groups.value != map[] {
        var clusters := Names.SortedList(GroupClusters(groups.value));
        var answer := inputs.sdk(DefaultStrategy(refs[n]), StatusList(store, x, clusters));
        MergeOk(plan, store, x, UnionOf(inputs.placements, refs[..n]), clusters, answer.value, refs[n], p, inputs.now);
        assert ClustersOfRef(inputs.placements, refs[n]) == set c | c in clusters;
      } else {
        assert ClustersOfRef(inputs.placements, refs[n]) == {};
        PlanOkRollouts(plan, store, x, UnionOf(inputs.placements, refs[..n]));
        assert UnionOf(inputs.placements, refs) == UnionOf(inputs.placements, refs[..n]);
      }
    } else {
      PlanOkNothing(store, x);
    }
  }

  lemma PlanOkRollouts(plan: Plan, store: Store, x: Job, selected: set<string>)
    requires PlanOk(plan, store, x, selected)
    ensures forall rollouts :: PlanOk(plan.(rollouts := rollouts), store, x, selected)
  {
  }

  lemma PlanOkNothing(store: Store, x: Job)
    ensures PlanOk(NO_PLAN, store, x, {})
  {
  }

  /** Only a look without trouble can report success. */
  lemma {:induction false} SucceededIsGood(store: Store, id: SetId, ds: seq<Desired>, faults: set<Call>,
                                           newest: Option<int>)
    ensures LookThrough(store, id, ds, faults, newest).seen.state == RolloutState.Succeeded
            ==> Good(LookThrough(store, id, ds, faults, newest))
    decreases |ds|
  {
    if |ds| > 0 {
      var l := LookAt(store, id, ds[0], faults);
      if Good(l) { SucceededIsGood(store, id, ds[1..], faults, NewerTime(newest, l.seen.time)); }
    }
  }

  /** A cluster the plan holds for Succeeded outside its window was observed to be so. */
  lemma SucceededWasObserved(plan: Plan, store: Store, x: Job, selected: set<string>, c: string)
    requires PlanOk(plan, store, x, selected) && c in plan.statuses && c !in plan.window
    requires plan.statuses[c].state == RolloutState.Succeeded
    ensures Good(ObserveCluster(store, x, c))
  {
    var front := [x.account(c)] + x.access(c);
    SucceededIsGood(store, x.id, front, x.faults, None);
    SucceededIsGood(store, x.id, Works(x.works(c)), x.faults,
                    LookThrough(store, x.id, front, x.faults, None).seen.time);
  }

  // ---------------------------------------------------------------- what the plan is made of

  /** The SDK's answer for one ref, when the ref has clusters to ask about. */
  function AnswerFor(store: Store, x: Job, ref: PlacementRef, inputs: Inputs): Option<RolloutResult> {
    var groups := inputs.placements(ref.name);
    if groups.None? || groups.value == map[] then None
    else inputs.sdk(DefaultStrategy(ref), StatusList(store, x, Names.SortedList(GroupClusters(groups.value))))
  }

  ghost predicate RollsOut(store: Store, x: Job, ref: PlacementRef, inputs: Inputs, c: string) {
    AnswerFor(store, x, ref, inputs).Some? && c in NamesIn(AnswerFor(store, x, ref, inputs).value.toRollout)
  }

  ghost predicate TimesOut(store: Store, x: Job, ref: PlacementRef, inputs: Inputs, c: string) {
    AnswerFor(store, x, ref, inputs).Some? && c in NamesIn(AnswerFor(store, x, ref, inputs).value.timedOut)
  }

  lemma OneRefAdds(plan: Plan, store: Store, x: Job, p: ReplicaSet, ref: PlacementRef, inputs: Inputs)
    requires PlanRef(plan, store, x, p, ref, inputs).Some?
    ensures var after, answer := PlanRef(plan, store, x, p, ref, inputs).value, AnswerFor(store, x, ref, inputs);
            && after.window == plan.window + (if answer.Some? then NamesIn(answer.value.toRollout) else {})
            && after.timedOut == plan.timedOut + (if answer.Some? then NamesIn(answer.value.timedOut) else {})
            && after.recheck == if answer.Some? then Recheck(plan.recheck, answer.value.recheck) else plan.recheck
  {
    hide Summarize, StatusMap, StatusList, Overlay, PreviousRollout, NamesIn, Recheck;
  }

  /** A cluster is in the plan's window exactly if some ref rolls it out, and timed out exactly if some ref says so. */
  lemma {:induction false} WindowExactly(store: Store, x: Job, p: ReplicaSet, refs: seq<PlacementRef>, inputs: Inputs,
                                         c: string)
    requires PlanRefs(store, x, p, refs, inputs).Some?
    ensures var plan := PlanRefs(store, x, p, refs, inputs).value;
            && (c in plan.window <==> exists ref | ref in refs :: RollsOut(store, x, ref, inputs, c))
            && (c in plan.timedOut <==> exists ref | ref in refs :: TimesOut(store, x, ref, inputs, c))
  {
    hide PlanRef, AnswerFor, NamesIn;
    var n := |refs| - 1;
    if n >= 0 {
      WindowExactly(store, x, p, refs[..n], inputs, c);
      OneRefAdds(PlanRefs(store, x, p, refs[..n], inputs).value, store, x, p, refs[n], inputs);
      assert forall r :: r in refs <==> r in refs[..n] || r == refs[n];
      assert RollsOut(store, x, refs[n], inputs, c) ==> exists ref | ref in refs :: RollsOut(store, x, ref, inputs, c);
      assert TimesOut(store, x, refs[n], inputs, c) ==> exists ref | ref in refs :: TimesOut(store, x, ref, inputs, c);
    }
  }

  ghost predicate Rechecks(store: Store, x: Job, ref: PlacementRef, inputs: Inputs, after: int) {
    AnswerFor(store, x, ref, inputs).Some? && AnswerFor(store, x, ref, inputs).value.recheck == after > 0
  }

  /** The plan is rechecked as soon as the first ref asks for it, and not at all if none does. */
  lemma {:induction false} SoonestRecheck(store: Store, x: Job, p: ReplicaSet, refs: seq<PlacementRef>, inputs: Inputs)
    requires PlanRefs(store, x, p, refs, inputs).Some?
    ensures var recheck := PlanRefs(store, x, p, refs, inputs).value.recheck;
            && (recheck == 0 || exists ref | ref in refs :: Rechecks(store, x, ref, inputs, recheck))
            && (forall ref, t | ref in refs && Rechecks(store, x, ref, inputs, t) :: 0 < recheck <= t)
  {
    hide PlanRef, AnswerFor, NamesIn;
    var n := |refs| - 1;
    if n >= 0 {
      SoonestRecheck(store, x, p, refs[..n], inputs);
      OneRefAdds(PlanRefs(store, x, p, refs[..n], inputs).value, store, x, p, refs[n], inputs);
      var before := PlanRefs(store, x, p, refs[..n], inputs).value;
      var after := PlanRefs(store, x, p, refs, inputs).value;
      assert forall r :: r in refs <==> r in refs[..n] || r == refs[n];
      if after.recheck != before.recheck {
        assert Rechecks(store, x, refs[n], inputs, after.recheck);
      }
    }
  }

  // ---------------------------------------------------------------- what the counts are

  /** No child is ever observed as timed out, so that only the SDK says so. */
  lemma NeverTimedOut(store: Store, x: Job, c: string)
    ensures StatusOf(store, x, c).state != TimeOut && StatusOf(store, x, c).cluster == c
  {
    var front, works := [x.account(c)] + x.access(c), Works(x.works(c));
    LooksInTime(store, x.id, front, x.faults, None);
    LooksInTime(store, x.id, works, x.faults, LookThrough(store, x.id, front, x.faults, None).seen.time);
  }

  lemma {:induction false} LooksInTime(store: Store, id: SetId, ds: seq<Desired>, faults: set<Call>,
                                       newest: Option<int>)
    ensures LookThrough(store, id, ds, faults, newest).seen.state != TimeOut
    decreases |ds|
  {
    if |ds| > 0 {
      LooksInTime(store, id, ds[1..], faults, NewerTime(newest, LookAt(store, id, ds[0], faults).seen.time));
    }
  }

  /** Outside both windows the plan holds what was observed. */
  ghost predicate PlanSees(plan: Plan, store: Store, x: Job) {
    forall c | c in plan.statuses && c !in plan.window && c !in plan.timedOut ::
      plan.statuses[c] == StatusOf(store, x, c)
  }

  lemma OverlaySees(observed: map<string, ClusterStatus>, r: RolloutResult, c: string)
    requires c !in NamesIn(r.toRollout) && c !in NamesIn(r.timedOut)
    ensures Get(Overlay(Overlay(observed, r.toRollout), r.timedOut), c) == Get(observed, c)
  {
    hide NamesIn, Overlay;
    OverlayKeys(observed, r.toRollout);
    OverlayKeys(Overlay(observed, r.toRollout), r.timedOut);
  }

  lemma MergeSees(plan: Plan, store: Store, x: Job, clusters: seq<string>, r: RolloutResult, ref: PlacementRef,
                  p: ReplicaSet, now: int)
    requires PlanSees(plan, store, x)
    ensures PlanSees(MergeRef(plan, StatusMap(store, x, clusters), r, ref, p, now), store, x)
  {
    hide Summarize, StatusOf, PreviousRollout, Recheck, Overlay, NamesIn;
    var observed := StatusMap(store, x, clusters);
    var after := MergeRef(plan, observed, r, ref, p, now);
    forall c | c in after.statuses && c !in after.window && c !in after.timedOut
      ensures after.statuses[c] == StatusOf(store, x, c)
    {
      OverlaySees(plan.statuses + observed, r, c);
      assert Get(after.statuses, c) == Some(after.statuses[c]);
    }
  }

  lemma {:induction false} PlanRefsSee(store: Store, x: Job, p: ReplicaSet, refs: seq<PlacementRef>, inputs: Inputs)
    requires PlanRefs(store, x, p, refs, inputs).Some?
    ensures PlanSees(PlanRefs(store, x, p, refs, inputs).value, store, x)
  {
    hide MergeRef, StatusMap, StatusList, StatusOf, CannotObserve;
    var n := |refs| - 1;
    if n >= 0 {
      PlanRefsSee(store, x, p, refs[..n], inputs);
      var plan, groups := PlanRefs(store, x, p, refs[..n], inputs).value, inputs.placements(refs[n].name);
      if groups.Some? && groups.value != map[] {
        var clusters := Names.SortedList(GroupClusters(groups.value));
        var answer := inputs.sdk(DefaultStrategy(refs[n]), StatusList(store, x, clusters));
        MergeSees(plan, store, x, clusters, answer.value, refs[n], p, inputs.now);
      }
    }
  }

  ghost function ObservedIn(store: Store, x: Job, clusters: set<string>, state: RolloutState): set<string> {
    set c | c in clusters && StatusOf(store, x, c).state == state
  }

  /** A summary of `clusters` in which each cluster is counted by what the SDK said, or else by what was observed. */
  ghost predicate CountedAs(s: RolloutSummary, clusters: set<string>, rolledOut: set<string>, timedOut: set<string>,
                            store: Store, x: Job) {
    && s.total == |clusters| && s.updating == |rolledOut| && s.timedOut == |timedOut|
    && s.succeeded == |ObservedIn(store, x, clusters - rolledOut - timedOut, RolloutState.Succeeded)|
    && s.failed == |ObservedIn(store, x, clusters - rolledOut - timedOut, RolloutState.Failed)|
    && (IsCompleted(s) <==> s.total != 0 && s.succeeded == s.total)
  }

  lemma FitsAsObserved(s: RolloutSummary, updating: set<string>, timedOut: set<string>,
                       statuses: map<string, ClusterStatus>, store: Store, x: Job)
    requires CountsFit(s, |statuses|, updating, timedOut, statuses)
    requires forall c | c in statuses.Keys - updating - timedOut :: statuses[c] == StatusOf(store, x, c)
    ensures CountedAs(s, statuses.Keys, updating, timedOut, store, x)
  {
    hide StatusOf, IsCompleted;
    var rest := statuses.Keys - updating - timedOut;
    assert |statuses| == |statuses.Keys|;
    assert (set c | c in rest && statuses[c].state == RolloutState.Succeeded)
        == ObservedIn(store, x, rest, RolloutState.Succeeded);
    assert (set c | c in rest && statuses[c].state == RolloutState.Failed)
        == ObservedIn(store, x, rest, RolloutState.Failed);
    forall c | c in rest ensures statuses[c].state != TimeOut {
      NeverTimedOut(store, x, c);
    }
    assert (set c | c in rest && statuses[c].state == TimeOut) == {};
  }

  /** The clusters that a ref rolls out, and those it times out. */
  ghost function RolledOutFor(store: Store, x: Job, ref: PlacementRef, inputs: Inputs): set<string> {
    set c | c in ClustersOfRef(inputs.placements, ref) && RollsOut(store, x, ref, inputs, c)
  }

  ghost function TimedOutFor(store: Store, x: Job, ref: PlacementRef, inputs: Inputs): set<string> {
    set c | c in ClustersOfRef(inputs.placements, ref) && TimesOut(store, x, ref, inputs, c)
  }

  lemma AnsweredWithin(store: Store, x: Job, clusters: seq<string>, r: RolloutResult)
    requires SdkAnswerOk(StatusList(store, x, clusters), r)
    ensures NamesIn(r.toRollout) <= (set c | c in clusters) && NamesIn(r.timedOut) <= set c | c in clusters
  {
    hide StatusOf, NamesIn;
    ObservedNames(store, x, clusters);
  }

  lemma MergeCounts(plan: Plan, store: Store, x: Job, clusters: seq<string>, r: RolloutResult, ref: PlacementRef,
                    p: ReplicaSet, now: int)
    requires SdkAnswerOk(StatusList(store, x, clusters), r)
    ensures var after := MergeRef(plan, StatusMap(store, x, clusters), r, ref, p, now);
            ref.name in after.rollouts
            && CountedAs(after.rollouts[ref.name], (set c | c in clusters), NamesIn(r.toRollout), NamesIn(r.timedOut),
                         store, x)
  {
    hide Summarize, StatusOf, PreviousRollout, Recheck, Overlay, NamesIn, CountsFit, CountedAs, SdkAnswerOk;
    var observed := StatusMap(store, x, clusters);
    var statuses := Overlay(Overlay(observed, r.toRollout), r.timedOut);
    var previous := PreviousRollout(p.status.placements, ref.name);
    AnsweredWithin(store, x, clusters, r);
    OverlayKeys(observed, r.toRollout);
    OverlayKeys(Overlay(observed, r.toRollout), r.timedOut);
    assert observed.Keys == set c | c in clusters;
    assert statuses.Keys == observed.Keys && |statuses| == |observed| by {
      assert |statuses| == |statuses.Keys| && |observed| == |observed.Keys|;
    }
    SummaryFits(|statuses|, NamesIn(r.toRollout), NamesIn(r.timedOut), statuses, previous, p.generation, now);
    forall c | c in statuses.Keys - NamesIn(r.toRollout) - NamesIn(r.timedOut)
      ensures statuses[c] == StatusOf(store, x, c)
    {
      OverlaySees(observed, r, c);
      assert Get(statuses, c) == Get(observed, c);
    }
    FitsAsObserved(Summarize(|statuses|, NamesIn(r.toRollout), NamesIn(r.timedOut), statuses, previous, p.generation,
                             now),
                   NamesIn(r.toRollout), NamesIn(r.timedOut), statuses, store, x);
  }

  lemma NothingCounted(store: Store, x: Job, previous: Conditions, generation: int, now: int)
    ensures CountedAs(Summarize(0, {}, {}, map[], previous, generation, now), {}, {}, {}, store, x)
  {
    hide StatusOf, Summarize;
    SummaryFits(0, {}, {}, map[], previous, generation, now);
    FitsAsObserved(Summarize(0, {}, {}, map[], previous, generation, now), {}, {}, map[], store, x);
  }

  lemma UngroupedRef(store: Store, x: Job, ref: PlacementRef, inputs: Inputs)
    requires var groups := inputs.placements(ref.name); groups.None? || groups.value == map[]
    ensures ClustersOfRef(inputs.placements, ref) == RolledOutFor(store, x, ref, inputs) == {}
            && TimedOutFor(store, x, ref, inputs) == {}
  {
  }

  lemma GroupedRef(store: Store, x: Job, ref: PlacementRef, inputs: Inputs, clusters: seq<string>,
                   answer: RolloutResult)
    requires var groups := inputs.placements(ref.name);
             groups.Some? && groups.value != map[] && clusters == Names.SortedList(GroupClusters(groups.value))
    requires AnswerFor(store, x, ref, inputs) == Some(answer) && SdkAnswerOk(StatusList(store, x, clusters), answer)
    ensures ClustersOfRef(inputs.placements, ref) == set c | c in clusters
    ensures RolledOutFor(store, x, ref, inputs) == NamesIn(answer.toRollout)
    ensures TimedOutFor(store, x, ref, inputs) == NamesIn(answer.timedOut)
  {
    hide NamesIn, AnswerFor, StatusList, SdkAnswerOk;
    AnsweredWithin(store, x, clusters, answer);
  }

  lemma RefCounts(plan: Plan, store: Store, x: Job, p: ReplicaSet, ref: PlacementRef, inputs: Inputs)
    requires SdkContract(inputs.sdk) && PlanRef(plan, store, x, p, ref, inputs).Some?
    ensures var after := PlanRef(plan, store, x, p, ref, inputs).value;
            && (forall name | name != ref.name :: Get(after.rollouts, name) == Get(plan.rollouts, name))
            && ref.name in after.rollouts
            && CountedAs(after.rollouts[ref.name], ClustersOfRef(inputs.placements, ref),
                         RolledOutFor(store, x, ref, inputs), TimedOutFor(store, x, ref, inputs), store, x)
  {
    hide Summarize, StatusMap, StatusList, PreviousRollout, Recheck, Overlay, NamesIn, CountedAs, CannotObserve,
         ClustersOfRef, RolledOutFor, TimedOutFor, SdkAnswerOk;
    var groups := inputs.placements(ref.name);
    if groups.None? || groups.value == map[] {
      UngroupedRef(store, x, ref, inputs);
      NothingCounted(store, x, PreviousRollout(p.status.placements, ref.name), p.generation, inputs.now);
    } else {
      var clusters := Names.SortedList(GroupClusters(groups.value));
      var answer := inputs.sdk(DefaultStrategy(ref), StatusList(store, x, clusters)).value;
      assert SdkAnswerOk(StatusList(store, x, clusters), answer);
      GroupedRef(store, x, ref, inputs, clusters, answer);
      MergeCounts(plan, store, x, clusters, answer, ref, p, inputs.now);
    }
  }

  /** The summary kept for each ref counts the ref's own clusters, by its own answer from the SDK. */
  lemma {:induction false} EachRefCounts(store: Store, x: Job, p: ReplicaSet, refs: seq<PlacementRef>, inputs: Inputs,
                                         i: nat)
    requires SdkContract(inputs.sdk) && UniqueRefs(refs) && i < |refs| && PlanRefs(store, x, p, refs, inputs).Some?
    ensures var rollouts := PlanRefs(store, x, p, refs, inputs).value.rollouts;
            refs[i].name in rollouts
            && CountedAs(rollouts[refs[i].name], ClustersOfRef(inputs.placements, refs[i]),
                         RolledOutFor(store, x, refs[i], inputs), TimedOutFor(store, x, refs[i], inputs), store, x)
  {
    hide PlanRef, CountedAs, RolledOutFor, TimedOutFor, SdkContract, ClustersOfRef;
    var n := |refs| - 1;
    var before := PlanRefs(store, x, p, refs[..n], inputs).value;
    RefCounts(before, store, x, p, refs[n], inputs);
    if i < n {
      EachRefCounts(store, x, p, refs[..n], inputs, i);
      assert refs[..n][i] == refs[i] && refs[i].name != refs[n].name;
      assert Get(before.rollouts, refs[i].name) == Some(before.rollouts[refs[i].name]);
    }
  }

  /** The summary's one condition keeps its transition time for as long as it keeps its status. */
  ghost predicate TimeKept(before: Conditions, after: Conditions, kind: string, now: int) {
    kind in after ==>
      after[kind].transition
      == if kind in before && before[kind].status == after[kind].status then before[kind].transition else Some(now)
  }

  lemma SummaryTimes(total: int, updating: set<string>, timedOut: set<string>, statuses: map<string, ClusterStatus>,
                     previous: Conditions, generation: int, now: int)
    ensures var after := Summarize(total, updating, timedOut, statuses, previous, generation, now).conditions;
            PROGRESSING in after && TimeKept(previous, after, PROGRESSING, now)
  {
    hide Outside;
  }

  lemma RefTimes(plan: Plan, store: Store, x: Job, p: ReplicaSet, ref: PlacementRef, inputs: Inputs)
    requires PlanRef(plan, store, x, p, ref, inputs).Some?
    ensures var after := PlanRef(plan, store, x, p, ref, inputs).value.rollouts;
            && (forall name | name != ref.name :: Get(after, name) == Get(plan.rollouts, name))
            && ref.name in after
            && TimeKept(PreviousRollout(p.status.placements, ref.name), after[ref.name].conditions, PROGRESSING,
                        inputs.now)
  {
    hide Summarize, StatusMap, StatusList, PreviousRollout, Recheck, Overlay, NamesIn, CannotObserve, TimeKept;
    var previous, groups := PreviousRollout(p.status.placements, ref.name), inputs.placements(ref.name);
    if groups.None? || groups.value == map[] {
      SummaryTimes(0, {}, {}, map[], previous, p.generation, inputs.now);
    } else {
      var clusters := Names.SortedList(GroupClusters(groups.value));
      var answer := inputs.sdk(DefaultStrategy(ref), StatusList(store, x, clusters)).value;
      var observed := StatusMap(store, x, clusters);
      SummaryTimes(|observed|, NamesIn(answer.toRollout), NamesIn(answer.timedOut),
                   Overlay(Overlay(observed, answer.toRollout), answer.timedOut), previous, p.generation, inputs.now);
    }
  }

  lemma {:induction false} EachRefTimes(store: Store, x: Job, p: ReplicaSet, refs: seq<PlacementRef>, inputs: Inputs,
                                        i: nat)
    requires UniqueRefs(refs) && i < |refs| && PlanRefs(store, x, p, refs, inputs).Some?
    ensures var rollouts := PlanRefs(store, x, p, refs, inputs).value.rollouts;
            refs[i].name in rollouts
            && TimeKept(PreviousRollout(p.status.placements, refs[i].name), rollouts[refs[i].name].conditions,
                        PROGRESSING, inputs.now)
  {
    hide PlanRef, TimeKept, PreviousRollout;
    var n := |refs| - 1;
    var before := PlanRefs(store, x, p, refs[..n], inputs).value;
    RefTimes(before, store, x, p, refs[n], inputs);
    if i < n {
      EachRefTimes(store, x, p, refs[..n], inputs, i);
      assert refs[..n][i] == refs[i] && refs[i].name != refs[n].name;
      assert Get(before.rollouts, refs[i].name) == Some(before.rollouts[refs[i].name]);
    }
  }

  ghost function RolledOutByAny(store: Store, x: Job, refs: seq<PlacementRef>, inputs: Inputs): set<string> {
    set c | c in UnionOf(inputs.placements, refs) && exists ref | ref in refs :: RollsOut(store, x, ref, inputs, c)
  }

  ghost function TimedOutByAny(store: Store, x: Job, refs: seq<PlacementRef>, inputs: Inputs): set<string> {
    set c | c in UnionOf(inputs.placements, refs) && exists ref | ref in refs :: TimesOut(store, x, ref, inputs, c)
  }

  /** The summary of the union counts each selected cluster, as rolled out or timed out if any ref says so. */
  lemma UnionCounts(store: Store, x: Job, p: ReplicaSet, inputs: Inputs)
    requires SdkContract(inputs.sdk) && PlanRefs(store, x, p, p.spec.placementRefs, inputs).Some?
    ensures var refs := p.spec.placementRefs;
            var plan, union := PlanRefs(store, x, p, refs, inputs).value, UnionOf(inputs.placements, refs);
            CountedAs(PlanSummary(plan, p, |union|, inputs.now), union, RolledOutByAny(store, x, refs, inputs),
                      TimedOutByAny(store, x, refs, inputs), store, x)
  {
    hide PlanRef, CountedAs, SdkContract, Summarize, StatusOf, RollsOut, TimesOut, CountsFit;
    var refs := p.spec.placementRefs;
    var plan, union := PlanRefs(store, x, p, refs, inputs).value, UnionOf(inputs.placements, refs);
    PlanRefsOk(store, x, p, refs, inputs);
    PlanRefsSee(store, x, p, refs, inputs);
    forall c {
      WindowExactly(store, x, p, refs, inputs, c);
    }
    assert plan.window == RolledOutByAny(store, x, refs, inputs);
    assert plan.timedOut == TimedOutByAny(store, x, refs, inputs);
    assert |plan.statuses| == |plan.statuses.Keys|;
    SummaryFits(|union|, plan.window, plan.timedOut, plan.statuses, RolloutConditions(p.status.rollout), p.generation,
                inputs.now);
    FitsAsObserved(PlanSummary(plan, p, |union|, inputs.now), plan.window, plan.timedOut, plan.statuses, store, x);
  }

  // ---------------------------------------------------------------- when it fails, and what the SDK is asked

  /** Planning fails exactly if for some ref with decision groups a cluster cannot be read or the SDK has no answer; a
      foreign child does not stop it. */
  ghost predicate RefFails(store: Store, x: Job, ref: PlacementRef, inputs: Inputs) {
    var groups := inputs.placements(ref.name);
    && groups.Some? && groups.value != map[]
    && ((exists c | c in ClustersOfRef(inputs.placements, ref) :: ObserveCluster(store, x, c).trouble.ReadError?)
        || AnswerFor(store, x, ref, inputs).None?)
  }

  lemma {:induction false} PlanFailsExactly(store: Store, x: Job, p: ReplicaSet, refs: seq<PlacementRef>,
                                            inputs: Inputs)
    ensures PlanRefs(store, x, p, refs, inputs).None? <==> exists ref | ref in refs :: RefFails(store, x, ref, inputs)
  {
    hide PlanRef, RefFails;
    var n := |refs| - 1;
    if n >= 0 {
      PlanFailsExactly(store, x, p, refs[..n], inputs);
      assert forall ref :: ref in refs <==> ref in refs[..n] || ref == refs[n];
      if PlanRefs(store, x, p, refs[..n], inputs).Some? {
        RefFailsExactly(PlanRefs(store, x, p, refs[..n], inputs).value, store, x, p, refs[n], inputs);
      }
    }
  }

  lemma RefFailsExactly(plan: Plan, store: Store, x: Job, p: ReplicaSet, ref: PlacementRef, inputs: Inputs)
    ensures PlanRef(plan, store, x, p, ref, inputs).None? <==> RefFails(store, x, ref, inputs)
  {
    hide MergeRef, StatusList, StatusMap, Summarize, PreviousRollout, ObserveCluster;
  }

  ghost function NamesInOrder(entries: seq<ClusterStatus>): seq<string> {
    seq(|entries|, i requires 0 <= i < |entries| => entries[i].cluster)
  }

  /** One entry for each of the clusters, in ascending order and as observed. */
  ghost predicate AsObserved(existing: seq<ClusterStatus>, clusters: set<string>, store: Store, x: Job) {
    && (forall e | e in existing :: e == StatusOf(store, x, e.cluster))
    && Names.Ascending(NamesInOrder(existing)) && (set e | e in existing :: e.cluster) == clusters
  }

  /** The SDK is asked about exactly the ref's clusters; a ref without a strategy is asked as one that rolls out all at
      once. */
  lemma AskedExactly(store: Store, x: Job, ref: PlacementRef, inputs: Inputs)
    requires var groups := inputs.placements(ref.name); groups.Some? && groups.value != map[]
    ensures var asked := if ref.strategy == "" then PlacementRef(ref.name, "All") else ref;
            exists existing ::
              && AnswerFor(store, x, ref, inputs) == inputs.sdk(asked, existing)
              && AsObserved(existing, ClustersOfRef(inputs.placements, ref), store, x)
  {
    hide StatusOf, Names.Ascending;
    var clusters := Names.SortedList(GroupClusters(inputs.placements(ref.name).value));
    var existing := StatusList(store, x, clusters);
    forall c { NeverTimedOut(store, x, c); }
    assert NamesInOrder(existing) == clusters;
    forall i | 0 <= i < |clusters| ensures clusters[i] in set e | e in existing :: e.cluster {
      assert existing[i] in existing && existing[i].cluster == clusters[i];
    }
    assert AsObserved(existing, ClustersOfRef(inputs.placements, ref), store, x);
  }
}
