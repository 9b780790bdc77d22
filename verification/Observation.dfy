/** Observing how far a cluster has come (clusterRolloutStatus and its helpers). */
module Observation {
  import opened Model
  import Metadata
  import opened Children
  import opened Hub
  import opened FanOut

  // ---------------------------------------------------------------- one child

  /** The newer of two times; an absent time never wins. */
  function NewerTime(a: Option<int>, b: Option<int>): Option<int> {
    if a.None? then b
    else if b.None? then a
    else if b.value > a.value then b
    else a
  }

  function ConditionTime(conditions: Conditions, kind: string): Option<int> {
    if kind in conditions then conditions[kind].transition else None
  }

  datatype Observed = Observed(state: RolloutState, time: Option<int>)

  function AccountState(c: Child): Observed {
    Observed(if AccountReady(c) then RolloutState.Succeeded else Progressing,
             NewerTime(ConditionTime(c.conditions, TOKEN_REPORTED), ConditionTime(c.conditions, SECRET_CREATED)))
  }

  predicate WorkNeedsApply(c: Child) {
    || !WorkConditionTrue(c, WORK_APPLIED)
    || WORK_PROGRESSING !in c.conditions
    || c.conditions[WORK_PROGRESSING].observedGeneration != c.generation
    || (WORK_DEGRADED in c.conditions && c.conditions[WORK_DEGRADED].observedGeneration != c.generation)
  }

  function WorkState(c: Child): Observed {
    if WorkNeedsApply(c) then Observed(ToApply, None)
    else
      var progressing := c.conditions[WORK_PROGRESSING];
      match progressing.status
      case True =>
        if ConditionTrue(c.conditions, WORK_DEGRADED)
            then Observed(RolloutState.Failed, ConditionTime(c.conditions, WORK_DEGRADED))
        else Observed(Progressing, progressing.transition)
      case False => Observed(RolloutState.Succeeded, progressing.transition)
      case Unknown => Observed(Progressing, progressing.transition)
  }

  function ChildState(kind: Kind, c: Child): Observed {
    if kind.AccountKind? then AccountState(c) else WorkState(c)
  }

  /** How an observation ended: a foreign child is a conflict, any other error aborts the planning. */
  datatype Trouble = NoTrouble | ForeignChild | ReadError

  datatype Look = Look(seen: Observed, trouble: Trouble)

  function LookAt(store: Store, id: SetId, d: Desired, faults: set<Call>): Look {
    if GetChild(d.key) in faults then Look(Observed(ToApply, None), ReadError)
    else if d.key !in store then Look(Observed(ToApply, None), NoTrouble)
    else
      var current := store[d.key];
      if !Metadata.OwnedBySet(id, current.labels) then Look(Observed(RolloutState.Failed, None), ForeignChild)
      else if !ChildMatches(current, d) then Look(Observed(ToApply, None), NoTrouble)
      else Look(ChildState(d.key.kind, current), NoTrouble)
  }

  predicate Good(l: Look) {
    l.trouble.NoTrouble? && l.seen.state == RolloutState.Succeeded
  }

  // ---------------------------------------------------------------- one cluster

  /** The first child that has not succeeded decides; otherwise the newest time is kept. */
  function LookThrough(store: Store, id: SetId, ds: seq<Desired>, faults: set<Call>, newest: Option<int>): Look {
    if |ds| == 0 then Look(Observed(RolloutState.Succeeded, newest), NoTrouble)
    else
      var l := LookAt(store, id, ds[0], faults);
      if Good(l) then LookThrough(store, id, ds[1..], faults, NewerTime(newest, l.seen.time)) else l
  }

  function ObserveCluster(store: Store, x: Job, cluster: string): Look {
    var first := LookThrough(store, x.id, [x.account(cluster)] + x.access(cluster), x.faults, None);
    if !Good(first) then first
    else if x.failed(cluster) then Look(Observed(Progressing, first.seen.time), ReadError)
    else LookThrough(store, x.id, Works(x.works(cluster)), x.faults, first.seen.time)
  }

  method ClusterRolloutStatus(store: Store, x: Job, cluster: string) returns (l: Look)
    ensures l == ObserveCluster(store, x, cluster)
  {
    hide LookAt;
    l := LookAt(store, x.id, x.account(cluster), x.faults);
    if !Good(l) {
      return;
    }
    var access, works := x.access(cluster), Works(x.works(cluster));
    ghost var front := [x.account(cluster)] + access;
    assert front[1..] == access;
    var successTime := NewerTime(None, l.seen.time);
    for i := 0 to |access|
      invariant LookThrough(store, x.id, front, x.faults, None)
                == LookThrough(store, x.id, access[i..], x.faults, successTime)
    {
      l := LookAt(store, x.id, access[i], x.faults);
      if !Good(l) {
        return;
      }
      assert access[i..][1..] == access[i + 1..];
      successTime := NewerTime(successTime, l.seen.time);
    }
    if x.failed(cluster) {
      return Look(Observed(Progressing, successTime), ReadError);
    }
    ghost var accessTime := successTime;
    assert works[0..] == works;
    for i := 0 to |works|
      invariant LookThrough(store, x.id, works, x.faults, accessTime)
                == LookThrough(store, x.id, works[i..], x.faults, successTime)
    {
      l := LookAt(store, x.id, works[i], x.faults);
      if !Good(l) {
        return;
      }
      assert works[i..][1..] == works[i + 1..];
      successTime := NewerTime(successTime, l.seen.time);
    }
    return Look(Observed(RolloutState.Succeeded, successTime), NoTrouble);
  }

  // ---------------------------------------------------------------- a conjunction with a maximum

  /** A child the next pass would neither write nor wait for. */
  ghost predicate Settled(store: Store, id: SetId, d: Desired, faults: set<Call>) {
    GetChild(d.key) !in faults && InPlace(store, id, d)
        && ChildState(d.key.kind, store[d.key]).state == RolloutState.Succeeded
  }

  lemma GoodIsSettled(store: Store, id: SetId, d: Desired, faults: set<Call>)
    ensures Good(LookAt(store, id, d, faults)) <==> Settled(store, id, d, faults)
  {
    if d.key in store { Metadata.OwnedByOwner(id, store[d.key].labels); }
  }

  ghost function TimeOf(store: Store, d: Desired): Option<int> {
    if d.key in store then ChildState(d.key.kind, store[d.key]).time else None
  }

  /** `newest` is the largest of the given times, absent only when all of them are. */
  ghost predicate IsNewest(newest: Option<int>, times: seq<Option<int>>) {
    && (newest.Some? ==> newest in times)
    && (forall t | t in times && t.Some? :: newest.Some? && t.value <= newest.value)
  }

  ghost function Times(store: Store, ds: seq<Desired>): (r: seq<Option<int>>)
    ensures |r| == |ds|
  {
    seq(|ds|, i requires 0 <= i < |ds| => TimeOf(store, ds[i]))
  }

  lemma NewerIsNewest(newest: Option<int>, times: seq<Option<int>>, t: Option<int>)
    requires IsNewest(newest, times)
    ensures IsNewest(NewerTime(newest, t), times + [t])
  {
  }

  lemma {:induction false} LookThroughExact(store: Store, id: SetId, before: seq<Option<int>>, ds: seq<Desired>,
                                            faults: set<Call>, newest: Option<int>)
    requires IsNewest(newest, before)
    ensures var l := LookThrough(store, id, ds, faults, newest);
            && (Good(l) <==> forall d | d in ds :: Settled(store, id, d, faults))
            && (Good(l) ==> IsNewest(l.seen.time, before + Times(store, ds)))
    decreases |ds|
  {
    hide Settled, LookAt, TimeOf;
    if |ds| > 0 {
      var l := LookAt(store, id, ds[0], faults);
      GoodIsSettled(store, id, ds[0], faults);
      assert forall d :: d in ds <==> d == ds[0] || d in ds[1..];
      if Good(l) {
        LookTime(store, id, ds[0], faults);
        NewerIsNewest(newest, before, l.seen.time);
        LookThroughExact(store, id, before + [l.seen.time], ds[1..], faults, NewerTime(newest, l.seen.time));
        assert before + [l.seen.time] + Times(store, ds[1..]) == before + Times(store, ds);
      }
    } else {
      assert before + Times(store, ds) == before;
    }
  }

  lemma LookTime(store: Store, id: SetId, d: Desired, faults: set<Call>)
    requires Good(LookAt(store, id, d, faults))
    ensures LookAt(store, id, d, faults).seen.time == TimeOf(store, d)
  {
  }

  /** Succeeded means: nothing failed to render and every child of the cluster is in place and has itself succeeded;
      the time is the newest. */
  lemma ObservationIsConjunction(store: Store, x: Job, cluster: string)
    ensures var l := ObserveCluster(store, x, cluster);
            && (Good(l) <==> !x.failed(cluster) && forall d | d in ChildrenOf(x, cluster) ::
                Settled(store, x.id, d, x.faults))
            && (Good(l) ==> IsNewest(l.seen.time,
                                     Times(store, [x.account(cluster)] + x.access(cluster) + Works(x.works(cluster)))))
  {
    hide Settled, LookThrough, TimeOf;
    var front, works := [x.account(cluster)] + x.access(cluster), Works(x.works(cluster));
    var first := LookThrough(store, x.id, front, x.faults, None);
    LookThroughExact(store, x.id, [], front, x.faults, None);
    assert [] + Times(store, front) == Times(store, front);
    assert forall d :: d in ChildrenOf(x, cluster) <==> d in front || d in works;
    if Good(first) {
      LookThroughExact(store, x.id, Times(store, front), works, x.faults, first.seen.time);
      assert Times(store, front) + Times(store, works) == Times(store, front + works);
    }
  }

  /** The newest time does not depend on the order in which the children are looked at. */
  lemma NewestUnique(a: Option<int>, s: seq<Option<int>>, b: Option<int>, t: seq<Option<int>>)
    requires IsNewest(a, s) && IsNewest(b, t) && forall x :: x in s <==> x in t
    ensures a == b
  {
  }

  // ---------------------------------------------------------------- in terms of conditions

  /** The agent says so, of the spec as it now is. */
  ghost predicate Says(c: Child, kind: string, status: ConditionStatus) {
    Speaks(c, kind) && c.conditions[kind].status == status
  }

  ghost predicate Speaks(c: Child, kind: string) {
    kind in c.conditions && c.conditions[kind].observedGeneration == c.generation
  }

  /** The agent has applied the spec as it now is, and nothing it says of the progress is out of date. */
  ghost predicate UpToDate(c: Child) {
    Says(c, WORK_APPLIED, True) && Speaks(c, WORK_PROGRESSING)
    && (WORK_DEGRADED in c.conditions ==> Speaks(c, WORK_DEGRADED))
  }

  /** When a work is still to be applied, failed, succeeded or under way, and since when. */
  lemma WorkObserved(c: Child)
    ensures var o := WorkState(c);
            && (o.state == ToApply <==> !UpToDate(c))
            && (o.state == RolloutState.Succeeded <==> UpToDate(c) && Says(c, WORK_PROGRESSING, False))
            && (o.state == RolloutState.Failed
                <==> UpToDate(c) && Says(c, WORK_PROGRESSING, True) && Says(c, WORK_DEGRADED, True))
            && (o.state == Progressing
                <==> UpToDate(c) && !Says(c, WORK_PROGRESSING, False)
                     && !(Says(c, WORK_PROGRESSING, True) && Says(c, WORK_DEGRADED, True)))
            && (o.state == ToApply ==> o.time == None)
            && (o.state == RolloutState.Failed ==> o.time == c.conditions[WORK_DEGRADED].transition)
            && (o.state in {RolloutState.Succeeded, Progressing} ==>
                  o.time == c.conditions[WORK_PROGRESSING].transition)
  {
    WorkConditionsDistinct();
  }

  lemma WorkConditionsDistinct()
    ensures |WORK_APPLIED| == 7 && |WORK_DEGRADED| == 8 && |WORK_PROGRESSING| == 11 && |WORK_AVAILABLE| == 9
    ensures |TOKEN_REPORTED| == 13 && SECRET_CREATED != TOKEN_REPORTED
  {
    assert SECRET_CREATED[0] == 'S' && TOKEN_REPORTED[0] == 'T';
  }

  /** An account has succeeded once its token is reported or its secret created, and is under way before. */
  lemma AccountObserved(c: Child)
    ensures var o := AccountState(c);
            && o.state in {RolloutState.Succeeded, Progressing}
            && (o.state == RolloutState.Succeeded <==>
                exists kind | kind in {TOKEN_REPORTED, SECRET_CREATED} ::
                  kind in c.conditions && c.conditions[kind].status == True)
            && IsNewest(o.time,
                        [ConditionTime(c.conditions, TOKEN_REPORTED), ConditionTime(c.conditions, SECRET_CREATED)])
  {
  }

  /** What one look at a child yields, in terms of what is there. */
  lemma LookExactly(store: Store, id: SetId, d: Desired, faults: set<Call>)
    ensures var l := LookAt(store, id, d, faults);
            if GetChild(d.key) in faults then l.trouble.ReadError?
            else if d.key !in store then l == Look(Observed(ToApply, None), Trouble.NoTrouble)
            else if Metadata.Owner(store[d.key].labels) != Some(id)
            then l == Look(Observed(RolloutState.Failed, None), ForeignChild)
            else if !InPlace(store, id, d) then l == Look(Observed(ToApply, None), Trouble.NoTrouble)
            else l.trouble.NoTrouble?
                 && l.seen == if d.key.kind.AccountKind? then AccountState(store[d.key]) else WorkState(store[d.key])
  {
    hide Metadata.Owner, Metadata.OwnedBySet, ChildMatches, AccountState, WorkState;
    if d.key in store { Metadata.OwnedByOwner(id, store[d.key].labels); }
  }

  /** A child that counts as done: readable, as wanted, and reported so by its agent. */
  ghost predicate ReportedDone(store: Store, id: SetId, d: Desired, faults: set<Call>) {
    && GetChild(d.key) !in faults && InPlace(store, id, d)
    && var c := store[d.key];
       if d.key.kind.AccountKind?
       then exists kind | kind in {TOKEN_REPORTED, SECRET_CREATED} ::
              kind in c.conditions && c.conditions[kind].status == True
       else UpToDate(c) && Says(c, WORK_PROGRESSING, False)
  }

  /** A cluster is observed Succeeded without trouble exactly if its children could be rendered and each is readable, as
      wanted and done: accounts with a token or secret, works applied and no longer progressing at their generation. */
  lemma SucceededExactly(store: Store, x: Job, cluster: string)
    ensures Good(ObserveCluster(store, x, cluster))
            <==> !x.failed(cluster) && forall d | d in ChildrenOf(x, cluster) :: ReportedDone(store, x.id, d, x.faults)
  {
    hide ObserveCluster, InPlace, WorkState, AccountState, UpToDate, ChildrenOf;
    ObservationIsConjunction(store, x, cluster);
    forall d | d in ChildrenOf(x, cluster)
      ensures Settled(store, x.id, d, x.faults) <==> ReportedDone(store, x.id, d, x.faults)
    {
      SettledExactly(store, x.id, d, x.faults);
    }
  }

  lemma SettledExactly(store: Store, id: SetId, d: Desired, faults: set<Call>)
    ensures Settled(store, id, d, faults) <==> ReportedDone(store, id, d, faults)
  {
    hide WorkState, AccountState, UpToDate, Metadata.Owner, ChildMatches;
    if d.key in store {
      WorkObserved(store[d.key]);
      AccountObserved(store[d.key]);
    }
  }

  // ---------------------------------------------------------------- who decides

  /** The first child that is not done decides. */
  lemma {:induction false} FirstDecides(store: Store, id: SetId, ds: seq<Desired>, faults: set<Call>,
                                        newest: Option<int>, i: nat)
    requires i < |ds| && !ReportedDone(store, id, ds[i], faults)
    requires forall j :: 0 <= j < i ==> ReportedDone(store, id, ds[j], faults)
    ensures LookThrough(store, id, ds, faults, newest) == LookAt(store, id, ds[i], faults)
    decreases i
  {
    hide LookAt, ReportedDone;
    SettledExactly(store, id, ds[0], faults);
    GoodIsSettled(store, id, ds[0], faults);
    if i > 0 {
      FirstDecides(store, id, ds[1..], faults, NewerTime(newest, LookAt(store, id, ds[0], faults).seen.time), i - 1);
    }
  }

  /** A cluster that has not succeeded is what its first child that is not done is, account first, then access children,
      then works; or under way and in trouble, if what comes before the works is done and they cannot be rendered. */
  lemma UnfinishedExactly(store: Store, x: Job, cluster: string, i: nat)
    requires var front := [x.account(cluster)] + x.access(cluster);
             var ds := front + Works(x.works(cluster));
             && i < |ds| && !ReportedDone(store, x.id, ds[i], x.faults)
             && forall j :: 0 <= j < i ==> ReportedDone(store, x.id, ds[j], x.faults)
    ensures var front := [x.account(cluster)] + x.access(cluster);
            var ds, l := front + Works(x.works(cluster)), ObserveCluster(store, x, cluster);
            if i >= |front| && x.failed(cluster) then l.trouble.ReadError? && l.seen.state == Progressing
            else l == LookAt(store, x.id, ds[i], x.faults)
  {
    hide LookAt, ReportedDone, LookThrough;
    var front, works := [x.account(cluster)] + x.access(cluster), Works(x.works(cluster));
    var ds := front + works;
    if i < |front| {
      assert forall j :: 0 <= j <= i ==> ds[j] == front[j];
      FirstDecides(store, x.id, front, x.faults, None, i);
      NotGood(store, x.id, front[i], x.faults);
    } else {
      assert forall j :: 0 <= j < |front| ==> ds[j] == front[j];
      AllDoneIsGood(store, x.id, front, x.faults, None);
      var k := i - |front|;
      assert forall j :: 0 <= j <= k ==> ds[|front| + j] == works[j];
      FirstDecides(store, x.id, works, x.faults, LookThrough(store, x.id, front, x.faults, None).seen.time, k);
    }
  }

  lemma NotGood(store: Store, id: SetId, d: Desired, faults: set<Call>)
    requires !ReportedDone(store, id, d, faults)
    ensures !Good(LookAt(store, id, d, faults))
  {
    hide LookAt, ReportedDone;
    SettledExactly(store, id, d, faults);
    GoodIsSettled(store, id, d, faults);
  }

  lemma {:induction false} AllDoneIsGood(store: Store, id: SetId, ds: seq<Desired>, faults: set<Call>,
                                         newest: Option<int>)
    requires forall j :: 0 <= j < |ds| ==> ReportedDone(store, id, ds[j], faults)
    ensures Good(LookThrough(store, id, ds, faults, newest))
    decreases |ds|
  {
    hide LookAt, ReportedDone;
    if |ds| > 0 {
      SettledExactly(store, id, ds[0], faults);
      GoodIsSettled(store, id, ds[0], faults);
      AllDoneIsGood(store, id, ds[1..], faults, NewerTime(newest, LookAt(store, id, ds[0], faults).seen.time));
    }
  }

  // ---------------------------------------------------------------- gating

  /** What planning and applying have in common: the same set, the same placement, the same namespaces resolved. */
  ghost predicate SameChildren(a: Job, b: Job, cluster: string) {
    a.id == b.id && ChildrenOf(a, cluster) == ChildrenOf(b, cluster) && a.failed(cluster) == b.failed(cluster)
  }

  /** A cluster observed Succeeded may be skipped: applying it would write nothing, whatever calls fail. */
  lemma GatingLosesNoWrite(h: HubState, plan: Job, apply: Job, cluster: string)
    requires SameChildren(plan, apply, cluster) && Good(ObserveCluster(h.store, plan, cluster))
    ensures ApplyCluster(h, cluster, apply).0 == h
    ensures ApplyCluster(h, cluster, apply).1.conflicts == 0
  {
    hide Metadata.Owner, ObserveCluster, Metadata.OwnedBySet, ChildMatches, Contribution, AllReady;
    ObservationIsConjunction(h.store, plan, cluster);
    var ds := ChildrenOf(apply, cluster);
    assert forall i :: 0 <= i < |ds| ==> ds[i] in ds && Settled(h.store, plan.id, ds[i], plan.faults);
    EnsureAllInPlace(h, apply.id, ds, apply.faults);
    NoneConflict(EnsureAll(h, apply.id, ds, apply.faults).1);
  }

  /** The same job without the skipping: what has succeeded is applied like the clusters of the window. */
  function Widened(x: Job, clusters: seq<string>): Job {
    x.(window := x.window + set c | c in clusters && Started(x, c))
  }

  lemma WidenedStep(start: HubState, h: HubState, cluster: string, clusters: seq<string>, x: Job, planned: Job)
    requires Agree(h.store, start.store, cluster) && ClusterOk(x, cluster)
    requires cluster !in x.window && Started(x, cluster)
             ==> SameChildren(planned, x, cluster) && Good(ObserveCluster(start.store, planned, cluster))
    ensures StepCluster(h, cluster, Widened(x, clusters)).0 == StepCluster(h, cluster, x).0
  {
    hide Metadata.Owner, ObserveCluster, Metadata.OwnedBySet, ChildMatches, Contribution, AllReady, CountConflicts,
         CountFailures, EnsureAll, Settled;
    var wide := Widened(x, clusters);
    assert ChildrenOf(wide, cluster) == ChildrenOf(x, cluster);
    assert Started(wide, cluster) == Started(x, cluster);
    if cluster !in x.window && Started(x, cluster) {
      ObservationIsConjunction(start.store, planned, cluster);
      var ds := ChildrenOf(x, cluster);
      forall i | 0 <= i < |ds| ensures InPlace(h.store, x.id, ds[i]) {
        assert ds[i] in ds && Settled(start.store, planned.id, ds[i], planned.faults);
        SettledMoves(start.store, h.store, x.id, ds[i], planned.faults);
      }
      EnsureAllInPlace(h, x.id, ds, x.faults);
    }
  }

  lemma SettledMoves(a: Store, b: Store, id: SetId, d: Desired, faults: set<Call>)
    requires Settled(a, id, d, faults) && Get(a, d.key) == Get(b, d.key)
    ensures InPlace(b, id, d)
  {
  }

  /** Gating refines full apply: with every succeeded cluster applied as well, the fan-out leaves the same hub. */
  lemma GatingRefinesFull(h: HubState, clusters: seq<string>, x: Job, planned: Job)
    requires NoRepeats(clusters) && JobOk(x)
    requires forall c | c in clusters && c !in x.window && Started(x, c) ::
             SameChildren(planned, x, c) && Good(ObserveCluster(h.store, planned, c))
    ensures FanOutAll(h, clusters, Widened(x, clusters)).0 == FanOutAll(h, clusters, x).0
  {
    GatingRefinesFullFor(h, clusters, clusters, x, planned);
  }

  lemma {:induction false} GatingRefinesFullFor(h: HubState, clusters: seq<string>, all: seq<string>, x: Job,
                                                planned: Job)
    requires NoRepeats(clusters) && JobOk(x)
    requires forall c | c in clusters && c !in x.window && Started(x, c) ::
             SameChildren(planned, x, c) && Good(ObserveCluster(h.store, planned, c))
    ensures FanOutAll(h, clusters, Widened(x, all)).0 == FanOutAll(h, clusters, x).0
  {
    hide StepCluster, ObserveCluster, SameChildren, Started, Widened, ClusterOk;
    var n := |clusters| - 1;
    if n >= 0 {
      var init, c := clusters[..n], clusters[n];
      GatingRefinesFullFor(h, init, all, x, planned);
      FanOutSplits(h, init, x);
      var before := FanOutAll(h, init, x).0;
      assert Agree(before.store, Expected(h, init, x, c), c);
      assert ClusterOk(x, c) && c in clusters;
      WidenedStep(h, before, c, all, x, planned);
    }
  }
}
