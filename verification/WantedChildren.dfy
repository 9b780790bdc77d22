/** What the children say that a pass wants: which placement they belong to, and what their works carry. */
module WantedChildren {
  import opened Model
  import opened Metadata
  import opened Rbac
  import opened Children
  import opened FanOut
  import opened Rollout
  import opened Planning
  import opened Reconciler
  import opened PassProperties
  import Hub

  // ---------------------------------------------------------------- the placement they belong to

  /** Labelled as belonging to that placement ref. */
  predicate BelongsTo(d: Desired, ref: string) {
    PLACEMENT_REF_NAME in d.labels && d.labels[PLACEMENT_REF_NAME] == ref
  }

  lemma WorkBelongs(id: SetId, cluster: string, ref: string, slice: Slice)
    ensures BelongsTo(BuildWork(id, cluster, ref, slice), ref)
  {
    KeysDistinct();
  }

  lemma AccountsBelong(id: SetId, spec: Spec, cluster: string, ref: string)
    ensures BelongsTo(BuildAccount(id, spec, cluster, ref), ref) && BelongsTo(BuildAccessAccount(id, cluster, ref), ref)
  {
    KeysDistinct();
  }

  lemma ChildBelongs(id: SetId, spec: Spec, cluster: string, ref: string, slices: seq<Slice>, d: Desired)
    requires d in DesiredChildren(id, spec, cluster, ref, slices)
    ensures BelongsTo(d, ref)
  {
    hide BuildWork, BuildAccount, BuildAccessAccount, BelongsTo, DesiredChildren;
    DesiredChildrenForms(id, spec, cluster, ref, slices, d);
    AccountsBelong(id, spec, cluster, ref);
    WorkBelongs(id, cluster, ref, AccessSlice(id, spec));
    if d in SliceChildren(id, cluster, ref, slices) {
      var i :| 0 <= i < |slices| && d == SliceChildren(id, cluster, ref, slices)[i];
      WorkBelongs(id, cluster, ref, slices[i]);
    }
  }

  lemma JobChildren(p: ReplicaSet, h: Hub.HubState, inputs: Inputs, c: string)
    requires PlanOf(p, h, inputs).Some?
    ensures ChildrenOf(JobOf(p, h, inputs), c)
            == DesiredChildren(p.id, p.spec, c, Primary(ResolutionOf(p, inputs).refs, c),
                               DesiredSlices(p.id, p.spec, c, inputs.resolve).slices)
  {
    hide DesiredSlices, ChildrenOf, DesiredChildren, PlanOf, Resolve;
    var plan := PlanOf(p, h, inputs).value;
    JobForChildren(p.id, p.spec, ResolutionOf(p, inputs).refs, plan.window, plan.statuses, inputs.resolve,
                   inputs.faults, c);
  }

  /** The first ref that selects a cluster is the i-th. */
  ghost predicate FirstSelecting(placements: Placements, refs: seq<PlacementRef>, c: string, i: nat) {
    && i < |refs| && c in ClustersOfRef(placements, refs[i])
    && forall j :: 0 <= j < i ==> c !in ClustersOfRef(placements, refs[j])
  }

  /** The child belongs to the first ref that selects its cluster. */
  ghost predicate BelongsToFirst(d: Desired, placements: Placements, refs: seq<PlacementRef>, c: string) {
    forall i: nat | FirstSelecting(placements, refs, c, i) :: BelongsTo(d, refs[i].name)
  }

  lemma PrimaryOfPass(p: ReplicaSet, inputs: Inputs, c: string, i: nat)
    requires FirstSelecting(inputs.placements, p.spec.placementRefs, c, i)
    ensures Primary(ResolutionOf(p, inputs).refs, c) == p.spec.placementRefs[i].name
  {
    hide ClustersOfRef, RefStatuses;
    PrimaryIsFirst(inputs.placements, p.spec.placementRefs, c, i);
    NotInUnion(inputs.placements, p.spec.placementRefs, c);
  }

  /** Every child that a pass wants in a cluster belongs to the first placement ref of the spec that selects it. */
  lemma FirstRefOwns(p: ReplicaSet, h: Hub.HubState, inputs: Inputs, c: string, d: Desired)
    requires PlanOf(p, h, inputs).Some? && d in ChildrenOf(JobOf(p, h, inputs), c)
    ensures BelongsToFirst(d, inputs.placements, p.spec.placementRefs, c)
  {
    hide PlanOf, JobOf, ResolutionOf, DesiredChildren, DesiredSlices, ChildrenOf, FirstSelecting, BelongsTo, Primary;
    var ref, slices := Primary(ResolutionOf(p, inputs).refs, c), DesiredSlices(p.id, p.spec, c, inputs.resolve).slices;
    JobChildren(p, h, inputs, c);
    ChildBelongs(p.id, p.spec, c, ref, slices, d);
    forall i: nat | FirstSelecting(inputs.placements, p.spec.placementRefs, c, i)
      ensures i < |p.spec.placementRefs| && p.spec.placementRefs[i].name == ref
    {
      PrimaryOfPass(p, inputs, c, i);
      SelectingIsRef(inputs.placements, p.spec.placementRefs, c, i);
    }
  }

  lemma SelectingIsRef(placements: Placements, refs: seq<PlacementRef>, c: string, i: nat)
    requires FirstSelecting(placements, refs, c, i)
    ensures i < |refs|
  {
  }

  // ---------------------------------------------------------------- what works carry

  /** The manifests that a work carries, all as objects. */
  ghost predicate CarriesObjects(spec: ChildSpec, manifests: seq<Manifest>) {
    spec == WorkSpec("Foreground", ObjectForm(manifests))
  }

  /** A work's annotation is the digest of what it carries; its namespace label, if any, is the namespace of all of it,
      and without one all of it is cluster scoped; and its type says whether it carries roles or cluster roles. */
  ghost predicate DescribesItself(d: Desired, manifests: seq<Manifest>) {
    && CarriesObjects(d.spec, manifests)
    && (manifests != [] ==> Get(d.annotations, SPEC_HASH) == Some(CONTENT_HASH(manifests)))
    && NamespaceTold(d.labels, d.annotations)
    && forall m | m in manifests ::
         && m.namespace == (if TARGET_NAMESPACE in d.labels then d.labels[TARGET_NAMESPACE] else "")
         && (m.kind in {RoleObject, RoleBindingObject} <==> Get(d.labels, SLICE_TYPE) == Some(NAMESPACE_SLICE))
  }

  /** What makes a slice's work describe itself. */
  ghost predicate SliceFits(s: Slice) {
    s.hash == SliceHash(s.manifests)
    && forall m | m in s.manifests ::
         m.namespace == s.targetNamespace
         && (m.kind in {RoleObject, RoleBindingObject} <==> s.sliceType == NAMESPACE_SLICE)
  }

  lemma WorkDescribesItself(id: SetId, cluster: string, ref: string, s: Slice)
    requires SliceFits(s)
    ensures DescribesItself(BuildWork(id, cluster, ref, s), s.manifests)
  {
    KeysDistinct();
  }

  /** The manifests of pairs are all of one namespace and of these kinds. */
  ghost predicate Alike(manifests: seq<Manifest>, namespace: string, kinds: set<ManifestKind>) {
    forall m | m in manifests :: m.namespace == namespace && m.kind in kinds
  }

  lemma PairsAlike(manifests: seq<Manifest>, grants: seq<Grant>, render: Grant -> seq<Manifest>, namespace: string,
                   kinds: set<ManifestKind>)
    requires PairsInOrder(manifests, grants, render)
    requires forall g :: Alike(render(g), namespace, kinds)
    ensures Alike(manifests, namespace, kinds)
  {
    forall k | 0 <= k < |manifests| ensures manifests[k].namespace == namespace && manifests[k].kind in kinds {
      var j := k / 2;
      assert Alike(render(grants[j]), namespace, kinds) && manifests[2 * j..2 * j + 2] == render(grants[j]);
      assert manifests[2 * j..2 * j + 2][k - 2 * j] == manifests[k];
      assert manifests[k] in render(grants[j]);
    }
  }

  lemma RenderedAlike(id: SetId, spec: Spec, g: Grant, namespace: string)
    ensures Alike(RenderCluster(id, spec, g), "", {ClusterRoleObject, ClusterRoleBindingObject})
    ensures Alike(RenderNamespaced(id, spec, g, namespace), namespace, {RoleObject, RoleBindingObject})
  {
    hide ObjectLabels, ObjectAnnotations;
  }

  lemma ClusterAlike(id: SetId, spec: Spec, manifests: seq<Manifest>, grants: seq<Grant>)
    requires PairsInOrder(manifests, grants, g => RenderCluster(id, spec, g))
    ensures Alike(manifests, "", {ClusterRoleObject, ClusterRoleBindingObject})
  {
    hide RenderCluster, Alike, PairsInOrder;
    forall g { RenderedAlike(id, spec, g, ""); }
    PairsAlike(manifests, grants, g => RenderCluster(id, spec, g), "", {ClusterRoleObject, ClusterRoleBindingObject});
  }

  lemma NamespaceAlike(id: SetId, spec: Spec, manifests: seq<Manifest>, grants: seq<Grant>, namespace: string)
    requires PairsInOrder(manifests, grants, g => RenderNamespaced(id, spec, g, namespace))
    ensures Alike(manifests, namespace, {RoleObject, RoleBindingObject})
  {
    hide RenderNamespaced, Alike, PairsInOrder;
    forall g { RenderedAlike(id, spec, g, namespace); }
    PairsAlike(manifests, grants, g => RenderNamespaced(id, spec, g, namespace), namespace,
               {RoleObject, RoleBindingObject});
  }

  lemma HashedSlices(id: SetId, spec: Spec, cluster: string, resolve: Resolver)
    ensures forall s | s in DesiredSlices(id, spec, cluster, resolve).slices :: s.hash == SliceHash(s.manifests)
  {
    hide ClusterManifests, NamespaceManifests, TargetNamespaces, SliceHash;
  }

  lemma SliceFitsByType(s: Slice)
    requires s.hash == SliceHash(s.manifests)
    requires (s.sliceType == CLUSTER_SLICE && s.targetNamespace == ""
              && Alike(s.manifests, "", {ClusterRoleObject, ClusterRoleBindingObject}))
             || (s.sliceType == NAMESPACE_SLICE
                 && Alike(s.manifests, s.targetNamespace, {RoleObject, RoleBindingObject}))
    ensures SliceFits(s)
  {
    hide SliceHash;
    SliceTypesApart();
  }

  lemma SliceFitsAt(id: SetId, spec: Spec, cluster: string, resolve: Resolver, slices: seq<Slice>, i: nat)
    requires WellSliced(id, spec, cluster, resolve, slices) && i < |slices|
    requires slices[i].hash == SliceHash(slices[i].manifests)
    ensures SliceFits(slices[i])
  {
    hide SliceHash, PairsInOrder, GrantsFor, ClusterGrants, Targets, Alike, SliceFits, RenderCluster, RenderNamespaced;
    var grants := Grants(spec);
    var offset := if ClusterGrants(grants) == [] then 0 else 1;
    if i < offset {
      ClusterAlike(id, spec, slices[0].manifests, ClusterGrants(grants));
    } else {
      var n := slices[i].targetNamespace;
      NamespaceAlike(id, spec, slices[i].manifests, GrantsFor(cluster, grants, resolve, n), n);
    }
    SliceFitsByType(slices[i]);
  }

  lemma SlicesFit(id: SetId, spec: Spec, cluster: string, resolve: Resolver)
    ensures forall s | s in DesiredSlices(id, spec, cluster, resolve).slices :: SliceFits(s)
  {
    HashedSlices(id, spec, cluster, resolve);
    if HasUnsupported(Grants(spec)) {
      assert DesiredSlices(id, spec, cluster, resolve).slices == [];
    } else {
      SlicesWellSliced(id, spec, cluster, resolve);
      hide DesiredSlices, WellSliced, SliceHash, SliceFits;
      var slices := DesiredSlices(id, spec, cluster, resolve).slices;
      forall i | 0 <= i < |slices| ensures SliceFits(slices[i]) {
        assert slices[i] in slices;
        SliceFitsAt(id, spec, cluster, resolve, slices, i);
      }
    }
  }

  lemma SliceTypesApart()
    ensures CLUSTER_SLICE != NAMESPACE_SLICE && ACCESS_SLICE != NAMESPACE_SLICE
  {
    assert |CLUSTER_SLICE| != |NAMESPACE_SLICE| && |ACCESS_SLICE| != |NAMESPACE_SLICE|;
  }

  lemma AccessSliceFits(id: SetId, spec: Spec)
    ensures SliceFits(AccessSlice(id, spec))
  {
    SliceTypesApart();
  }

  /** The access work lets exactly the access account of its cluster read namespaces there, and nothing else. */
  lemma AccessForItsAccount(id: SetId, spec: Spec, cluster: string, ref: string)
    ensures var work, account := BuildAccessWork(id, spec, cluster, ref), BuildAccessAccount(id, cluster, ref);
            && work.key.cluster == account.key.cluster == cluster
            && exists role, binding ::
                 && CarriesObjects(work.spec, [role, binding])
                 && role.kind == ClusterRoleObject && role.rules == ["namespaces get,list,watch"]
                 && binding.kind == ClusterRoleBindingObject && binding.roleRef == Some(RoleRef(role.kind, role.name))
                 && binding.subjects == [Subject(account.key.name, spec.template.namespace)]
  {
    var manifests := AccessManifests(id, spec);
    assert manifests == [manifests[0], manifests[1]];
    assert CarriesObjects(BuildAccessWork(id, spec, cluster, ref).spec, [manifests[0], manifests[1]]);
  }

  /** Every work that a pass wants describes itself. */
  lemma WorksDescribeThemselves(p: ReplicaSet, h: Hub.HubState, inputs: Inputs, c: string, d: Desired)
    requires PlanOf(p, h, inputs).Some? && d in ChildrenOf(JobOf(p, h, inputs), c) && d.key.kind.WorkKind?
    ensures exists manifests :: DescribesItself(d, manifests)
  {
    hide PlanOf, JobOf, ResolutionOf, DesiredChildren, DesiredSlices, ChildrenOf, Primary, BuildWork, DescribesItself,
         SliceFits;
    var ref, slices := Primary(ResolutionOf(p, inputs).refs, c), DesiredSlices(p.id, p.spec, c, inputs.resolve).slices;
    JobChildren(p, h, inputs, c);
    DesiredChildrenForms(p.id, p.spec, c, ref, slices, d);
    SlicesFit(p.id, p.spec, c, inputs.resolve);
    if d in SliceChildren(p.id, c, ref, slices) {
      var i :| 0 <= i < |slices| && d == SliceChildren(p.id, c, ref, slices)[i];
      assert slices[i] in slices;
      WorkDescribesItself(p.id, c, ref, slices[i]);
    } else {
      AccessSliceFits(p.id, p.spec);
      WorkDescribesItself(p.id, c, ref, AccessSlice(p.id, p.spec));
    }
  }
}
