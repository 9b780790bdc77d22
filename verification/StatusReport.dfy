/** The status a pass writes: conditions and counts (applyChildResultConditions and the status part of Reconcile). */
module StatusReport {
  import opened Model
  import FanOut
  import opened Cleanup
  import opened Rollout
  import opened Planning

  const ACCOUNTS_READY := "ManagedServiceAccountsReady"
  const PERMISSIONS_APPLIED := "RemotePermissionsApplied"
  const CLEANUP_BLOCKED := "CleanupBlocked"
  const READY := "Ready"
  const ROLLED_OUT := "PlacementRolledOut"

  function NewStatus(p: ReplicaSet): Status {
    Status(p.status.observedGeneration, 0, 0, None, None, None, [], p.status.conditions)
  }

  function EarlyReturn(conditions: Conditions, reason: string, generation: int, now: int): Conditions {
    var a := SetCondition(conditions, PLACEMENT_RESOLVED, False, reason, generation, now);
    var b := SetCondition(a, ACCOUNTS_READY, False, reason, generation, now);
    var c := SetCondition(b, PERMISSIONS_APPLIED, False, reason, generation, now);
    var d := SetCondition(c, ROLLED_OUT, False, reason, generation, now);
    var e := SetCondition(d, READY, False, reason, generation, now);
    NotDeleting(e, generation, now)
  }

  function NotDeleting(conditions: Conditions, generation: int, now: int): Conditions {
    SetCondition(conditions, CLEANUP_BLOCKED, False, "NotDeleting", generation, now)
  }

  /** No summary means that no RBAC child was aggregated, which is not pending. */
  predicate RbacPending(s: Option<Summary>) {
    s.Some? && s.value.available < s.value.desiredTotal
  }

  datatype Verdict = Verdict(status: ConditionStatus, reason: string)

  function ReadyVerdict(r: ChildResult, summary: Option<Summary>, total: nat, remote: bool): (v: Verdict)
    ensures v.status != Unknown
  {
    if r.failed then Verdict(False, "ApplyFailed")
    else if r.conflicts > 0 then Verdict(False, "ChildConflict")
    else if r.failures > 0 then Verdict(False, "ClusterFailed")
    else if r.ready < total then
      if remote && RbacPending(summary) then Verdict(False, "WaitingForRBAC")
          else Verdict(False, "WaitingForCredentials")
    else Verdict(True, "Ready")
  }

  function PermissionsVerdict(r: ChildResult, summary: Option<Summary>, remote: bool): Verdict {
    if !remote then Verdict(True, "Disabled")
    else if r.failed || r.conflicts > 0 || r.failures > 0 then Verdict(False, "ApplyFailed")
    else if RbacPending(summary) then Verdict(False, "WaitingForRBAC")
    else Verdict(True, "Applied")
  }

  function ApplyChildResult(conditions: Conditions, r: ChildResult, summary: Option<Summary>, total: nat, remote: bool,
                            generation: int, now: int): Conditions {
    var ready, permissions := ReadyVerdict(r, summary, total, remote), PermissionsVerdict(r, summary, remote);
    var a := SetCondition(conditions, ACCOUNTS_READY, ready.status, ready.reason, generation, now);
    var b := SetCondition(a, READY, ready.status, ready.reason, generation, now);
    SetCondition(b, PERMISSIONS_APPLIED, permissions.status, permissions.reason, generation, now)
  }

  function RolledOut(conditions: Conditions, rollout: RolloutSummary, generation: int, now: int): Conditions {
    if PROGRESSING !in rollout.conditions then conditions
    else if IsCompleted(rollout) then SetCondition(conditions, ROLLED_OUT, True, "Complete", generation, now)
    else SetCondition(conditions, ROLLED_OUT, False, PROGRESSING, generation, now)
  }

  function CleanupVerdict(conditions: Conditions, pending: bool, generation: int, now: int): Conditions {
    if pending then
      var blocked := SetCondition(conditions, CLEANUP_BLOCKED, True, "WaitingForOCMCleanup", generation, now);
      SetCondition(blocked, READY, False, "CleanupBlocked", generation, now)
    else NotDeleting(conditions, generation, now)
  }

  function AccessReport(p: ReplicaSet, selected: nat, ready: nat, now: int): AccessStatus {
    var previous := if p.status.access.Some? then p.status.access.value.conditions else map[];
    AccessStatus(selected, ready,
                 if ready == selected then SetCondition(previous, READY, True, "Ready", p.generation, now)
                 else SetCondition(previous, READY, False, "WaitingForCredentials", p.generation, now))
  }

  function PlacementReports(placements: seq<PlacementStatus>, plan: Plan,
                            byRef: map<string, Summary>): seq<PlacementStatus> {
    seq(|placements|, i requires 0 <= i < |placements| =>
      placements[i].(rollout := Get(plan.rollouts, placements[i].name),
                     summary := Get(byRef, placements[i].name)))
  }

  /** The conditions up to and including the placement's resolution. */
  function ResolvedConditions(p: ReplicaSet, now: int): Conditions {
    SetCondition(p.status.conditions, PLACEMENT_RESOLVED, True, "AsExpected", p.generation, now)
  }

  /** The status of a pass that could not plan its rollout: earlier rollout conditions stay. */
  function UnplannedStatus(p: ReplicaSet, resolution: Resolution, now: int): Status {
    var result := ChildResult(0, 0, 0, false, true);
    NewStatus(p).(
      observedGeneration := p.generation, placements := resolution.placements, selected := |resolution.clusters|,
      conditions := ApplyChildResult(ResolvedConditions(p, now), result, None, |resolution.clusters|,
                                     RbacEnabled(p.spec), p.generation, now))
  }

  /** The status of a pass that got as far as the children. */
  function FullStatus(p: ReplicaSet, resolution: Resolution, plan: Plan, selector: bool, t: FanOut.Tally,
                      r: ChildResult, now: int): Status {
    var total := |resolution.clusters|;
    var rollout := PlanSummary(plan, p, total, now);
    var planned := RolledOut(ResolvedConditions(p, now), rollout, p.generation, now);
    var applied := ApplyChildResult(planned, r, t.summary, total, RbacEnabled(p.spec), p.generation, now);
    Status(p.generation, total, r.ready, t.summary, Some(rollout),
           if selector then Some(AccessReport(p, total, t.accessReady, now)) else None,
           PlacementReports(resolution.placements, plan, t.byRef),
           CleanupVerdict(applied, r.pending, p.generation, now))
  }

  /** The condition is there, with this status and for this reason. */
  ghost predicate SaysOf(conditions: Conditions, kind: string, status: ConditionStatus, reason: string) {
    kind in conditions && conditions[kind].status == status && conditions[kind].reason == reason
  }

  lemma ConditionNamesDistinct()
    ensures |PLACEMENT_RESOLVED| == 17 && |ACCOUNTS_READY| == 27 && |PERMISSIONS_APPLIED| == 24
            && |CLEANUP_BLOCKED| == 14
    ensures |READY| == 5 && |ROLLED_OUT| == 18
  {
  }

  /** Ready is true exactly when the pass had no error, no conflict, no failure, no pending cleanup and counted every
      cluster ready. */
  lemma ReadyExactly(p: ReplicaSet, resolution: Resolution, plan: Plan, selector: bool, t: FanOut.Tally, r: ChildResult,
                     now: int)
    ensures var s := FullStatus(p, resolution, plan, selector, t, r, now);
            ConditionTrue(s.conditions, READY) <==>
            !r.failed && r.conflicts == 0 && r.failures == 0 && !r.pending && r.ready >= |resolution.clusters|
  {
    ConditionNamesDistinct();
  }

  /** RolledOut is true exactly when the rollout summary says so, whatever else the pass met. */
  lemma RolledOutExactly(p: ReplicaSet, resolution: Resolution, plan: Plan, selector: bool, t: FanOut.Tally,
                         r: ChildResult, now: int)
    ensures ConditionTrue(FullStatus(p, resolution, plan, selector, t, r, now).conditions, ROLLED_OUT)
            <==> IsCompleted(PlanSummary(plan, p, |resolution.clusters|, now))
  {
    ConditionNamesDistinct();
  }

  /** RemotePermissionsApplied is true exactly when RBAC is off, or the pass met no trouble and no counted work is
      missing or unavailable. */
  lemma PermissionsExactly(p: ReplicaSet, resolution: Resolution, plan: Plan, selector: bool, t: FanOut.Tally,
                           r: ChildResult, now: int)
    ensures ConditionTrue(FullStatus(p, resolution, plan, selector, t, r, now).conditions, PERMISSIONS_APPLIED)
            <==>
            (!RbacEnabled(p.spec)
             || (!r.failed && r.conflicts == 0 && r.failures == 0
                 && FanOut.GetOr(t.summary).available >= FanOut.GetOr(t.summary).desiredTotal))
  {
    ConditionNamesDistinct();
  }

  /** What SetCondition makes of one condition. */
  function Turned(previous: Option<Condition>, v: Verdict, generation: int, now: int): Condition {
    Condition(v.status, v.reason, generation,
              if previous.Some? && previous.value.status == v.status then previous.value.transition else Some(now))
  }

  /** The Ready condition a full pass leaves: one verdict, overruled by a pending cleanup. */
  lemma ReadyEntry(p: ReplicaSet, resolution: Resolution, plan: Plan, selector: bool, t: FanOut.Tally, r: ChildResult,
                   now: int)
    ensures var c := FullStatus(p, resolution, plan, selector, t, r, now).conditions;
            var v := ReadyVerdict(r, t.summary, |resolution.clusters|, RbacEnabled(p.spec));
            var first := Turned(Get(p.status.conditions, READY), v, p.generation, now);
            Get(c, READY)
                == Some(if r.pending then Turned(Some(first), Verdict(False, "CleanupBlocked"), p.generation, now)
                    else first)
  {
    hide ReadyVerdict, PermissionsVerdict, IsCompleted, PlanSummary, RbacEnabled;
    ConditionNamesDistinct();
  }

  /** Repeating a pass with the same outcome leaves the Ready condition as it was, unless cleanup is pending although
      the children are ready: then Ready is set to true and back to false, and its transition time moves. */
  lemma ReadyTimeKeptExactly(p: ReplicaSet, resolution: Resolution, plan: Plan, selector: bool, t: FanOut.Tally,
                             r: ChildResult, now: int, later: int)
    requires now != later
    ensures var s := FullStatus(p, resolution, plan, selector, t, r, now);
            var again := FullStatus(p.(status := s), resolution, plan, selector, t, r, later);
            READY in s.conditions && READY in again.conditions
            && (again.conditions[READY] == s.conditions[READY] <==>
                !(r.pending && ReadyVerdict(r, t.summary, |resolution.clusters|, RbacEnabled(p.spec)).status == True))
  {
    hide FullStatus, ReadyVerdict, RbacEnabled;
    ReadyEntry(p, resolution, plan, selector, t, r, now);
    ReadyEntry(p.(status := FullStatus(p, resolution, plan, selector, t, r, now)), resolution, plan, selector, t, r,
               later);
  }
}
