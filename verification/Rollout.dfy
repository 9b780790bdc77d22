/** Selecting clusters and planning the rollout (resolvePlacementRefs, planRollout, newRolloutSummary). */
module Rollout {
  import opened Model
  import opened Names
  import opened Hub
  import FanOut

  const PLACEMENT_RESOLVED := "PlacementResolved"
  const PLACEMENT_EMPTY := "PlacementEmpty"
  const PROGRESSING := "Progressing"
  const COMPLETED_REASON := "Completed"

  // ---------------------------------------------------------------- placement refs

  /** `refs` lists, for each selected cluster, the refs that select it in the order of the spec. */
  datatype Resolution = Resolution(
    clusters: seq<string>, refs: map<string, seq<string>>, placements: seq<PlacementStatus>, failed: bool)

  type Placements = string -> Option<Groups>

  function ClustersOfRef(placements: Placements, ref: PlacementRef): set<string> {
    match placements(ref.name)
    case None => {}
    case Some(groups) => GroupClusters(groups)
  }

  function UnionOf(placements: Placements, refs: seq<PlacementRef>): set<string> {
    if |refs| == 0 then {} else UnionOf(placements, refs[..|refs| - 1]) + ClustersOfRef(placements, refs[|refs| - 1])
  }

  /** The refs that select a cluster, in the order of the spec. */
  function RefsSelecting(placements: Placements, refs: seq<PlacementRef>, cluster: string): seq<string> {
    if |refs| == 0 then []
    else
      var rest := RefsSelecting(placements, refs[..|refs| - 1], cluster);
      if cluster in ClustersOfRef(placements, refs[|refs| - 1]) then rest + [refs[|refs| - 1].name] else rest
  }

  function PreviousPlacement(status: Status, name: string): Option<PlacementStatus> {
    PreviousIn(status.placements, name)
  }

  /** The last entry of that name, as when the entries are put in a map one after the other. */
  function PreviousIn(placements: seq<PlacementStatus>, name: string): Option<PlacementStatus> {
    if |placements| == 0 then None
    else if placements[|placements| - 1].name == name then Some(placements[|placements| - 1])
    else PreviousIn(placements[..|placements| - 1], name)
  }

  function RefConditions(previous: Conditions, groups: Option<Groups>, generation: int, now: int): Conditions {
    match groups
    case None => SetCondition(previous, PLACEMENT_RESOLVED, False, "PlacementUnavailable", generation,
                              now) - {PLACEMENT_EMPTY}
    case Some(g) =>
      var resolved := SetCondition(previous, PLACEMENT_RESOLVED, True, "AsExpected", generation, now);
      if GroupClusters(g) == {} then SetCondition(resolved, PLACEMENT_EMPTY, True, "NoDecisions", generation, now)
      else resolved - {PLACEMENT_EMPTY}
  }

  function RefStatus(p: ReplicaSet, placements: Placements, ref: PlacementRef, now: int): PlacementStatus {
    var previous := PreviousPlacement(p.status, ref.name);
    PlacementStatus(ref.name, |ClustersOfRef(placements, ref)|, None, None,
                    RefConditions(if previous.Some? then previous.value.conditions
                        else map[], placements(ref.name), p.generation, now))
  }

  function RefStatuses(p: ReplicaSet, placements: Placements, refs: seq<PlacementRef>, now: int): seq<PlacementStatus> {
    seq(|refs|, i requires 0 <= i < |refs| => RefStatus(p, placements, refs[i], now))
  }

  /** The selected clusters are the sorted union, each reconciled once under the first ref that selected it. */
  function Resolve(p: ReplicaSet, placements: Placements, now: int): Resolution {
    var refs := p.spec.placementRefs;
    Resolution(
      SortedList(UnionOf(placements, refs)),
      map c | c in UnionOf(placements, refs) :: RefsSelecting(placements, refs, c),
      RefStatuses(p, placements, refs, now),
      exists r | r in refs :: placements(r.name).None?)
  }

  /** What the loop over the refs has gathered after `refs`. */
  ghost predicate Gathered(p: ReplicaSet, placements: Placements, refs: seq<PlacementRef>, now: int, union: set<string>,
                           clusterRefs: map<string, seq<string>>, statuses: seq<PlacementStatus>, failed: bool) {
    && union == UnionOf(placements, refs)
    && clusterRefs.Keys == union
    && (forall c | c in union :: clusterRefs[c] == RefsSelecting(placements, refs, c))
    && statuses == RefStatuses(p, placements, refs, now)
    && (failed <==> exists r | r in refs :: placements(r.name).None?)
  }

  lemma GatherStep(p: ReplicaSet, placements: Placements, refs: seq<PlacementRef>, ref: PlacementRef, now: int,
                   union: set<string>, clusterRefs: map<string, seq<string>>, statuses: seq<PlacementStatus>,
                   failed: bool, after: map<string, seq<string>>)
    requires Gathered(p, placements, refs, now, union, clusterRefs, statuses, failed)
    requires var clusters := ClustersOfRef(placements, ref);
             after.Keys == union + clusters &&
             forall c | c in after ::
               after[c] == (if c in clusterRefs then clusterRefs[c] else []) + if c in clusters then [ref.name] else []
    ensures Gathered(p, placements, refs + [ref], now, union + ClustersOfRef(placements, ref), after,
                     statuses + [RefStatus(p, placements, ref, now)], failed || placements(ref.name).None?)
  {
    hide RefStatus, ClustersOfRef;
    assert (refs + [ref])[..|refs|] == refs;
    assert forall r :: r in refs + [ref] <==> r in refs || r == ref;
    forall c | c in after ensures after[c] == RefsSelecting(placements, refs + [ref], c) {
      UnselectedHasNoRefs(placements, refs, c);
    }
    assert statuses + [RefStatus(p, placements, ref, now)] == RefStatuses(p, placements, refs + [ref], now);
  }

  method ResolvePlacementRefs(p: ReplicaSet, placements: Placements, now: int) returns (r: Resolution)
    ensures r == Resolve(p, placements, now)
  {
    var refs := p.spec.placementRefs;
    var union: set<string> := {};
    var clusterRefs: map<string, seq<string>> := map[];
    var statuses: seq<PlacementStatus> := [];
    var failed := false;
    for i := 0 to |refs|
      invariant Gathered(p, placements, refs[..i], now, union, clusterRefs, statuses, failed)
    {
      var ref := refs[i];
      assert refs[..i + 1] == refs[..i] + [ref];
      var clusters := SortedList(ClustersOfRef(placements, ref));
      var after := AppendRef(clusters, ref.name, clusterRefs);
      GatherStep(p, placements, refs[..i], ref, now, union, clusterRefs, statuses, failed, after);
      failed := failed || placements(ref.name).None?;
      statuses := statuses + [RefStatus(p, placements, ref, now)];
      clusterRefs := after;
      union := union + ClustersOfRef(placements, ref);
    }
    assert refs[..|refs|] == refs;
    assert clusterRefs == Resolve(p, placements, now).refs;
    return Resolution(SortedList(union), clusterRefs, statuses, failed);
  }

  method AppendRef(clusters: seq<string>, ref: string, before: map<string, seq<string>>)
    returns (after: map<string, seq<string>>)
    requires Ascending(clusters)
    ensures forall c :: c in after <==> c in before || c in clusters
    ensures forall c | c in after ::
              after[c] == (if c in before then before[c] else []) + if c in clusters then [ref] else []
  {
    AscendingDistinct(clusters);
    hide Ascending;
    after := before;
    for j := 0 to |clusters|
      invariant forall c :: c in after <==> c in before || c in clusters[..j]
      invariant forall c | c in after ::
                  after[c] == (if c in before then before[c] else []) + if c in clusters[..j] then [ref] else []
    {
      var c := clusters[j];
      assert c !in clusters[..j];
      assert forall b :: b in clusters[..j + 1] <==> b in clusters[..j] || b == c;
      after := after[c := (if c in after then after[c] else []) + [ref]];
    }
    assert clusters[..|clusters|] == clusters;
  }

  lemma {:induction false} UnselectedHasNoRefs(placements: Placements, refs: seq<PlacementRef>, cluster: string)
    ensures cluster in UnionOf(placements, refs) <==> RefsSelecting(placements, refs, cluster) != []
  {
    if |refs| > 0 { UnselectedHasNoRefs(placements, refs[..|refs| - 1], cluster); }
  }

  /** The primary ref of a selected cluster is the first ref of the spec that selects it, and unselected clusters
      have none. */
  lemma {:induction false} PrimaryIsFirst(placements: Placements, refs: seq<PlacementRef>, cluster: string, i: nat)
    requires i < |refs| && cluster in ClustersOfRef(placements, refs[i])
    requires forall j :: 0 <= j < i ==> cluster !in ClustersOfRef(placements, refs[j])
    ensures var selecting := RefsSelecting(placements, refs, cluster); |selecting| > 0 && selecting[0] == refs[i].name
  {
    var n := |refs| - 1;
    if i < n {
      PrimaryIsFirst(placements, refs[..n], cluster, i);
    } else {
      UnselectedHasNoRefs(placements, refs[..n], cluster);
      NotInUnion(placements, refs[..n], cluster);
    }
  }

  lemma {:induction false} NotInUnion(placements: Placements, refs: seq<PlacementRef>, cluster: string)
    ensures cluster in UnionOf(placements, refs) <==> exists i ::
            0 <= i < |refs| && cluster in ClustersOfRef(placements, refs[i])
  {
    var n := |refs| - 1;
    if n >= 0 {
      NotInUnion(placements, refs[..n], cluster);
      if i :| 0 <= i < |refs| && cluster in ClustersOfRef(placements, refs[i]) {
        assert i < n ==> refs[..n][i] == refs[i];
      }
    }
  }

  ghost predicate UniqueRefs(refs: seq<PlacementRef>) {
    forall i, j :: 0 <= i < j < |refs| ==> refs[i].name != refs[j].name
  }

  /** A cluster's refs are exactly those whose placement selected it, each once. */
  lemma {:induction false} RefsSelectingExactly(placements: Placements, refs: seq<PlacementRef>, cluster: string)
    requires UniqueRefs(refs)
    ensures var names := RefsSelecting(placements, refs, cluster);
            && FanOut.NoRepeats(names)
            && (forall i ::
                  0 <= i < |refs| ==> (refs[i].name in names <==> cluster in ClustersOfRef(placements, refs[i])))
            && (forall n | n in names :: exists i :: 0 <= i < |refs| && refs[i].name == n)
  {
    hide ClustersOfRef;
    var n := |refs| - 1;
    if n >= 0 {
      RefsSelectingExactly(placements, refs[..n], cluster);
      assert forall i :: 0 <= i < n ==> refs[..n][i] == refs[i];
      var rest := RefsSelecting(placements, refs[..n], cluster);
      assert refs[n].name !in rest;
      assert FanOut.NoRepeats(rest + [refs[n].name]);
    }
  }

  // ---------------------------------------------------------------- rollout counts

  /** The clusters outside both windows that are in `state`. */
  function Outside(statuses: map<string, ClusterStatus>, updating: set<string>, timedOut: set<string>,
                   state: RolloutState): set<string> {
    set c | c in statuses && c !in updating && c !in timedOut && statuses[c].state == state
  }

  function Summarize(total: int, updating: set<string>, timedOut: set<string>, statuses: map<string, ClusterStatus>,
                     previous: Conditions, generation: int, now: int): RolloutSummary {
    var succeeded := |Outside(statuses, updating, timedOut, RolloutState.Succeeded)|;
    RolloutSummary(
      total, |updating|, succeeded,
      |Outside(statuses, updating, timedOut, RolloutState.Failed)|,
      |timedOut| + |Outside(statuses, updating, timedOut, TimeOut)|,
      if total == 0 || succeeded != total
      then SetCondition(previous, PROGRESSING, True, PROGRESSING, generation, now)
      else SetCondition(previous, PROGRESSING, False, COMPLETED_REASON, generation, now))
  }

  /** What each count of a summary is, and that it is completed exactly if there are clusters and all have succeeded. */
  ghost predicate CountsFit(s: RolloutSummary, total: int, updating: set<string>, timedOut: set<string>,
                            statuses: map<string, ClusterStatus>) {
    && s.total == total && s.updating == |updating|
    && s.succeeded == |set c | c in statuses.Keys - updating - timedOut && statuses[c].state == RolloutState.Succeeded|
    && s.failed == |set c | c in statuses.Keys - updating - timedOut && statuses[c].state == RolloutState.Failed|
    && s.timedOut == |timedOut| + |set c | c in statuses.Keys - updating - timedOut && statuses[c].state == TimeOut|
    && (IsCompleted(s) <==> s.total != 0 && s.succeeded == s.total)
  }

  lemma SummaryFits(total: int, updating: set<string>, timedOut: set<string>, statuses: map<string, ClusterStatus>,
                    previous: Conditions, generation: int, now: int)
    ensures CountsFit(Summarize(total, updating, timedOut, statuses, previous, generation, now), total, updating,
                      timedOut, statuses)
  {
    OutsideIs(updating, timedOut, statuses, RolloutState.Succeeded);
    OutsideIs(updating, timedOut, statuses, RolloutState.Failed);
    OutsideIs(updating, timedOut, statuses, TimeOut);
  }

  lemma OutsideIs(updating: set<string>, timedOut: set<string>, statuses: map<string, ClusterStatus>,
                  state: RolloutState)
    ensures Outside(statuses, updating, timedOut, state)
            == set c | c in statuses.Keys - updating - timedOut && statuses[c].state == state
  {
  }

  /** newRolloutSummary: one loop over the statuses, in whatever order the map yields them. */
  method NewRolloutSummary(total: int, updating: set<string>, timedOut: set<string>,
                           statuses: map<string, ClusterStatus>, previous: Conditions, generation: int, now: int)
    returns (r: RolloutSummary)
    ensures r == Summarize(total, updating, timedOut, statuses, previous, generation, now)
    ensures CountsFit(r, total, updating, timedOut, statuses)
  {
    SummaryFits(total, updating, timedOut, statuses, previous, generation, now);
    hide CountsFit;
    var succeeded, failed, late := CountStates(updating, timedOut, statuses);
    var conditions := if total == 0 || succeeded != total
      then SetCondition(previous, PROGRESSING, True, PROGRESSING, generation, now)
      else SetCondition(previous, PROGRESSING, False, COMPLETED_REASON, generation, now);
    return RolloutSummary(total, |updating|, succeeded, failed, |timedOut| + late, conditions);
  }

  method CountStates(updating: set<string>, timedOut: set<string>, statuses: map<string, ClusterStatus>)
    returns (succeeded: nat, failed: nat, late: nat)
    ensures succeeded == |Outside(statuses, updating, timedOut, RolloutState.Succeeded)|
    ensures failed == |Outside(statuses, updating, timedOut, RolloutState.Failed)|
    ensures late == |Outside(statuses, updating, timedOut, TimeOut)|
  {
    OutsideNothing(updating, timedOut);
    hide Outside;
    succeeded, failed, late := 0, 0, 0;
    var rest := statuses.Keys;
    ghost var seen: map<string, ClusterStatus> := map[];
    while rest != {}
      invariant rest <= statuses.Keys
      invariant seen == map c | c in statuses && c !in rest :: statuses[c]
      invariant succeeded == |Outside(seen, updating, timedOut, RolloutState.Succeeded)|
      invariant failed == |Outside(seen, updating, timedOut, RolloutState.Failed)|
      invariant late == |Outside(seen, updating, timedOut, TimeOut)|
      decreases |rest|
    {
      var c :| c in rest;
      rest := rest - {c};
      OutsideStep(seen, updating, timedOut, c, statuses[c]);
      seen := seen[c := statuses[c]];
      if c !in updating && c !in timedOut {
        match statuses[c].state {
          case Succeeded => succeeded := succeeded + 1;
          case Failed => failed := failed + 1;
          case TimeOut => late := late + 1;
          case _ =>
        }
      }
    }
    assert seen == statuses;
  }

  lemma OutsideStep(seen: map<string, ClusterStatus>, updating: set<string>, timedOut: set<string>, c: string,
                    status: ClusterStatus)
    requires c !in seen
    ensures forall s :: Outside(seen[c := status], updating, timedOut, s) ==
                        if c !in updating && c !in timedOut && status.state == s
                            then Outside(seen, updating, timedOut, s) + {c}
                        else Outside(seen, updating, timedOut, s)
    ensures forall s :: c !in Outside(seen, updating, timedOut, s)
  {
  }

  lemma OutsideNothing(updating: set<string>, timedOut: set<string>)
    ensures forall s :: Outside(map[], updating, timedOut, s) == {}
  {
  }

  ghost function Unaccounted(statuses: map<string, ClusterStatus>, updating: set<string>,
                             timedOut: set<string>): set<string> {
    Outside(statuses, updating, timedOut, ToApply) + Outside(statuses, updating, timedOut, Progressing)
    + Outside(statuses, updating, timedOut, Skip)
  }

  /** Every cluster is counted once, except that one in both windows counts twice and a waiting one outside both not
      at all. */
  lemma CountIdentity(total: int, updating: set<string>, timedOut: set<string>, statuses: map<string, ClusterStatus>,
                      previous: Conditions, generation: int, now: int)
    requires updating <= statuses.Keys && timedOut <= statuses.Keys
    ensures var s := Summarize(total, updating, timedOut, statuses, previous, generation, now);
            s.updating + s.succeeded + s.failed + s.timedOut
            == |statuses| + |updating * timedOut| - |Unaccounted(statuses, updating, timedOut)|
  {
    var a, b, c := Outside(statuses, updating, timedOut, RolloutState.Succeeded),
        Outside(statuses, updating, timedOut, RolloutState.Failed),
      Outside(statuses, updating, timedOut, TimeOut);
    var u := Unaccounted(statuses, updating, timedOut);
    Partition(updating, timedOut, statuses);
    hide Outside, Unaccounted;
    DisjointSizes(a, b, c, u);
    assert |updating + timedOut| == |updating| + |timedOut| - |updating * timedOut|;
    assert |statuses.Keys| == |updating + timedOut| + |a + b + c + u|;
  }

  lemma Partition(updating: set<string>, timedOut: set<string>, statuses: map<string, ClusterStatus>)
    requires updating <= statuses.Keys && timedOut <= statuses.Keys
    ensures var a, b, c, u := Outside(statuses, updating, timedOut, RolloutState.Succeeded),
            Outside(statuses, updating, timedOut, RolloutState.Failed),
              Outside(statuses, updating, timedOut, TimeOut), Unaccounted(statuses, updating, timedOut);
            a !! b !! c !! u && (updating + timedOut) !! (a + b + c + u)
                && statuses.Keys == (updating + timedOut) + (a + b + c + u)
  {
  }

  lemma DisjointSizes(a: set<string>, b: set<string>, c: set<string>, d: set<string>)
    requires a !! b !! c !! d
    ensures |a + b + c + d| == |a| + |b| + |c| + |d|
  {
    assert |a + b| == |a| + |b| && |a + b + c| == |a + b| + |c| && |a + b + c + d| == |a + b + c| + |d|;
  }

  predicate IsCompleted(s: RolloutSummary) {
    PROGRESSING in s.conditions && s.conditions[PROGRESSING].status == False
        && s.conditions[PROGRESSING].reason == COMPLETED_REASON
  }

  /** A rollout is complete exactly when there is a cluster, both windows are empty and every cluster has succeeded. */
  lemma CompletedExactly(updating: set<string>, timedOut: set<string>, statuses: map<string, ClusterStatus>,
                         previous: Conditions, generation: int, now: int)
    requires updating <= statuses.Keys && timedOut <= statuses.Keys
    ensures IsCompleted(Summarize(|statuses|, updating, timedOut, statuses, previous, generation, now))
            <==> statuses != map[] && updating == {} && timedOut == {}
                 && forall c | c in statuses :: statuses[c].state == RolloutState.Succeeded
  {
    var succeeded := Outside(statuses, updating, timedOut, RolloutState.Succeeded);
    SubsetSize(succeeded, statuses.Keys);
    assert |statuses| == |statuses.Keys|;
    assert succeeded == statuses.Keys ==> forall c | c in statuses :: c in succeeded;
  }
}
