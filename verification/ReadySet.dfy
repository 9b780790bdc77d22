/** A set with a role whose children are all in place and ready: on it the hypotheses of the main results hold. */
module ReadySet {
  import opened Model
  import Names
  import opened Metadata
  import Rbac
  import opened Children
  import Hub
  import opened FanOut
  import Cleanup
  import Convergence
  import Rollout
  import Planning
  import StatusReport
  import opened Reconciler
  import opened PassProperties
  import opened PassEffects
  import Reporting
  import opened Example
  import opened Witnesses

  function ReaderWork(): Desired {
    BuildWork(ID, "cluster", "placement", ReaderSlice(NoNamespaces))
  }

  /** A child as written, with a condition that its agent has reported. */
  function ReadyChild(d: Desired, reported: string): Child {
    Hub.Created(d).(conditions := map[reported := Condition(True, "Reported", 1, Some(7))])
  }

  /** The account with its token, and the work that carries the role, available. */
  function ReadyHub(): Hub.HubState {
    Hub.HubState(map[Account(WITH_ROLE).key := ReadyChild(Account(WITH_ROLE), TOKEN_REPORTED),
                     ReaderWork().key := ReadyChild(ReaderWork(), WORK_AVAILABLE)], {})
  }

  lemma ReadyChildInPlace(store: Store, d: Desired, reported: string)
    requires Owner(d.labels) == Some(ID) && d.key in store && store[d.key] == ReadyChild(d, reported)
    requires if d.key.kind.AccountKind? then reported == TOKEN_REPORTED else reported == WORK_AVAILABLE
    ensures ReadyInPlace(store, ID, d)
  {
    hide Owner, SpecEqual, Stored;
    StoredEqual(d.spec);
  }

  lemma OwnedByID()
    ensures Owner(Account(WITH_ROLE).labels) == Some(ID) && Owner(ReaderWork().labels) == Some(ID)
  {
    hide ChildLabels, Owner, BuildWork, Rbac.NamespaceSlice;
    ChildLabelsOwned(ID, "placement", map[]);
    WorkOwned(ID, "cluster", "placement", ReaderSlice(NoNamespaces));
  }

  lemma KeysOfChildren()
    ensures Account(WITH_ROLE).key.kind.AccountKind? && ReaderWork().key.kind.WorkKind?
    ensures Account(WITH_ROLE).key.cluster == "cluster" && ReaderWork().key.cluster == "cluster"
  {
    hide ChildLabels, Rbac.NamespaceSlice;
  }

  lemma ReadyHubReady()
    ensures ReadyInPlace(ReadyHub().store, ID, Account(WITH_ROLE)) && ReadyInPlace(ReadyHub().store, ID, ReaderWork())
    ensures ReadyHub().store.Keys == {Account(WITH_ROLE).key, ReaderWork().key}
  {
    hide BuildAccount, BuildWork, Owner, ReadyChild, ReadyInPlace;
    OwnedByID();
    KeysOfChildren();
    ReadyChildInPlace(ReadyHub().store, Account(WITH_ROLE), TOKEN_REPORTED);
    ReadyChildInPlace(ReadyHub().store, ReaderWork(), WORK_AVAILABLE);
  }

  lemma WantedChildren()
    ensures DesiredChildren(ID, WITH_ROLE, "cluster", "placement", [ReaderSlice(NoNamespaces)])
            == [Account(WITH_ROLE), ReaderWork()]
  {
    hide BuildAccount, BuildWork;
    assert AccessChildren(ID, WITH_ROLE, "cluster", "placement") == [];
    assert SliceChildren(ID, "cluster", "placement", [ReaderSlice(NoNamespaces)]) == [ReaderWork()];
  }

  lemma NoSelectorFits()
    ensures TemplateFits(ID, WITH_ROLE)
  {
    hide Names.AccessAccountName, PlainTemplate;
  }

  /** What a pass finds: every wanted child in place and ready, and nothing else of the set's. */
  lemma ChildrenOfPass(x: Job)
    requires x.id == ID && ChildrenOf(x, "cluster") == [Account(WITH_ROLE), ReaderWork()]
    ensures Reporting.AllReadyInPlace(ReadyHub().store, ["cluster"], x)
    ensures Convergence.NoForeign(ReadyHub().store, ["cluster"], x)
    ensures forall k :: !Convergence.UnwantedWork(ReadyHub().store, ["cluster"], x, k)
  {
    hide ReadyHub, BuildAccount, BuildWork, Owner, ChildMatches, ChildReady;
    ReadyHubReady();
    KeysOfChildren();
    var ds := ChildrenOf(x, "cluster");
    forall k ensures !Convergence.UnwantedWork(ReadyHub().store, ["cluster"], x, k) {
      if k in ReadyHub().store {
        assert ds[0] in ds && ds[1] in ds;
        assert Has(ds, k);
      }
    }
  }

  lemma PassOverReadySet()
    requires DigestsApart(ID, WITH_ROLE, "cluster", NoNamespaces)
    ensures var p, h := Parent(WITH_ROLE), ReadyHub();
            && Planning.SdkContract(ROLLING.sdk) && ReachesChildren(p, h, ROLLING) && Untroubled(p, h, ROLLING)
            && ResolutionOf(p, ROLLING).clusters == ["cluster"]
            && Reporting.AllReadyInPlace(h.store, ["cluster"], JobOf(p, h, ROLLING))
            && !UnwantedLeft(h.store, p, ROLLING, JobOf(p, h, ROLLING))
  {
    hide PlanOf, Rollout.Resolve, ValidSpec, Planning.SdkContract, TemplateFits, Rbac.DesiredSlices, DigestsApart,
         ApplyJob, ReadyHub, ChildrenOf, Convergence.NoForeign, Reporting.AllReadyInPlace, Convergence.UnwantedWork,
         JobOk;
    var p, h := Parent(WITH_ROLE), ReadyHub();
    RollAllContract();
    SdksDiffer();
    WithRoleValid();
    ReaderSlices(NoNamespaces);
    NoSelectorFits();
    Planned(p, h, ROLLING);
    Reaches(p, h, ROLLING);
    Chosen(p, ROLLING.now);
    JobFacts(p, h, ROLLING);
    ApplyJobFailed(p, ResolutionOf(p, ROLLING), PlanOf(p, h, ROLLING).value, ROLLING, "cluster");
    ChildrenOfJob(p, h, ROLLING);
    WantedChildren();
    ChildrenOfPass(JobOf(p, h, ROLLING));
  }

  lemma ChildrenOfJob(p: ReplicaSet, h: Hub.HubState, inputs: Inputs)
    requires PlanOf(p, h, inputs).Some?
    ensures ChildrenOf(JobOf(p, h, inputs), "cluster")
            == DesiredChildren(p.id, p.spec, "cluster", Primary(ResolutionOf(p, inputs).refs, "cluster"),
                               Rbac.DesiredSlices(p.id, p.spec, "cluster", inputs.resolve).slices)
  {
    hide Rbac.DesiredSlices, ChildrenOf, DesiredChildren, DesiredWorkNames, DesiredAccountNames, SelectorRbacEnabled,
         PlanOf, Rollout.Resolve;
    var plan := PlanOf(p, h, inputs).value;
    JobForChildren(p.id, p.spec, ResolutionOf(p, inputs).refs, plan.window, plan.statuses, inputs.resolve,
                   inputs.faults, "cluster");
  }

  /** The hypotheses of the results about clean, untroubled and reporting passes hold together as soon as no two digests
      collide; and the pass converges, reports Ready and RemotePermissionsApplied. */
  lemma HypothesesMet()
    requires DigestsApart(ID, WITH_ROLE, "cluster", NoNamespaces)
    ensures var p, h := Parent(WITH_ROLE), ReadyHub();
            && Planning.SdkContract(ROLLING.sdk) && ReachesChildren(p, h, ROLLING) && Untroubled(p, h, ROLLING)
            && RbacEnabled(p.spec) && Rollout.UniqueRefs(p.spec.placementRefs)
            && ResolutionOf(p, ROLLING).clusters != []
            && Convergence.CleanPass(ChildrenReconciled(p, h, ROLLING))
            && ConditionTrue(ReportedStatus(p, h, ROLLING).conditions, StatusReport.READY)
            && ConditionTrue(ReportedStatus(p, h, ROLLING).conditions, StatusReport.PERMISSIONS_APPLIED)
            && SetConverged(ReconcilePass(p, h, ROLLING).hub.store, p, ROLLING.placements, ROLLING.resolve)
  {
    hide PlanOf, Rollout.Resolve, ReconcilePass, Planning.SdkContract, DigestsApart, JobOf, ReachesChildren, Untroubled,
         StatusReport.FullStatus, Cleanup.ReconcileChildren, ReadyHub, SetConverged, Reporting.AllReadyInPlace,
         UnwantedLeft;
    PassOverReadySet();
    Reporting.UntroubledPassReports(Parent(WITH_ROLE), ReadyHub(), ROLLING);
    UntroubledPassConverges(Parent(WITH_ROLE), ReadyHub(), ROLLING);
  }
}
