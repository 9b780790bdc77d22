/** Compiling the grant list of a set into one RBAC slice per target namespace (rbac.go). */
module Rbac {
  import opened Model
  import opened Names
  import opened Metadata

  const CLUSTER_SLICE := "workload-rbac-cluster"
  const NAMESPACE_SLICE := "workload-rbac-namespace"

  datatype Slice = Slice(name: string, sliceType: string, targetNamespace: string, manifests: seq<Manifest>,
      hash: string)

  /** What one compilation yields: the slices it could render, and whether some grant failed. */
  datatype Compiled = Compiled(slices: seq<Slice>, failed: bool)

  /** Digest of a non-empty manifest list; nothing is known about it. */
  const CONTENT_HASH: seq<Manifest> -> string

  function SliceHash(manifests: seq<Manifest>): string {
    if |manifests| == 0 then "" else CONTENT_HASH(manifests)
  }

  // ---------------------------------------------------------------- rendering one grant

  function ObjectLabels(id: SetId, g: Grant, namespace: string): map<string, string> {
    var labels := (Sanitized(g.labels) + SourceLabels(id))[GRANT_ID := g.id];
    if namespace != "" then labels[TARGET_NAMESPACE := namespace][TARGET_NAMESPACE_HASH := STABLE_HASH(namespace)]
        else labels
  }

  function ObjectAnnotations(id: SetId, g: Grant, namespace: string): map<string, string> {
    var annotations := ChildAnnotations(id, g.annotations);
    if namespace != "" then annotations[TARGET_NAMESPACE := namespace] else annotations
  }

  function RolePair(roleKind: ManifestKind, bindingKind: ManifestKind, id: SetId, spec: Spec, g: Grant,
                    namespace: string): seq<Manifest> {
    var labels, annotations := ObjectLabels(id, g, namespace), ObjectAnnotations(id, g, namespace);
    [Manifest(roleKind, namespace, g.name, labels, annotations, g.rules, [], None),
     Manifest(bindingKind, namespace, g.name, labels, annotations, [],
              [Subject(spec.template.name, spec.template.namespace)], Some(RoleRef(roleKind, g.name)))]
  }

  function RenderNamespaced(id: SetId, spec: Spec, g: Grant, namespace: string): seq<Manifest> {
    RolePair(RoleObject, RoleBindingObject, id, spec, g, namespace)
  }

  function RenderCluster(id: SetId, spec: Spec, g: Grant): seq<Manifest> {
    RolePair(ClusterRoleObject, ClusterRoleBindingObject, id, spec, g, "")
  }

  /** The namespaces a Role grant expands to in a cluster, sorted and without repetition; None is an error. */
  function GrantNamespaces(cluster: string, g: Grant, resolve: Resolver): Option<seq<string>> {
    if g.forEach.None? then None
    else
      var each := g.forEach.value;
      if each.name != "" then Some([each.name])
      else if |each.names| > 0 then Some(SortedList(set n | n in each.names))
      else if each.selector.Some? then
        if !each.selector.value.wellFormed then None
        else match resolve(cluster, g)
          case None => None
          case Some(namespaces) => Some(SortedList(set n | n in namespaces))
      else None
  }

  // ---------------------------------------------------------------- specification of the compiler

  predicate Fails(cluster: string, g: Grant, resolve: Resolver) {
    g.kind.RoleGrant? && GrantNamespaces(cluster, g, resolve).None?
  }

  predicate Targets(cluster: string, g: Grant, resolve: Resolver, namespace: string) {
    g.kind.RoleGrant? && !Fails(cluster, g, resolve) && namespace in GrantNamespaces(cluster, g, resolve).value
  }

  function OwnTargets(cluster: string, g: Grant, resolve: Resolver): set<string> {
    if g.kind.RoleGrant? && !Fails(cluster, g, resolve) then set n | n in GrantNamespaces(cluster, g, resolve).value
        else {}
  }

  function TargetNamespaces(cluster: string, grants: seq<Grant>, resolve: Resolver): set<string> {
    if |grants| == 0 then {}
    else TargetNamespaces(cluster, grants[..|grants| - 1], resolve) + OwnTargets(cluster, grants[|grants| - 1], resolve)
  }

  function ClusterGrants(grants: seq<Grant>): seq<Grant> {
    if |grants| == 0 then []
    else
      var rest := ClusterGrants(grants[..|grants| - 1]);
      if grants[|grants| - 1].kind.ClusterRoleGrant? then rest + [grants[|grants| - 1]] else rest
  }

  function GrantsFor(cluster: string, grants: seq<Grant>, resolve: Resolver, namespace: string): seq<Grant> {
    if |grants| == 0 then []
    else
      var rest := GrantsFor(cluster, grants[..|grants| - 1], resolve, namespace);
      if Targets(cluster, grants[|grants| - 1], resolve, namespace) then rest + [grants[|grants| - 1]] else rest
  }

  function ClusterManifests(id: SetId, spec: Spec, grants: seq<Grant>): seq<Manifest> {
    if |grants| == 0 then []
    else ClusterManifests(id, spec, grants[..|grants| - 1]) + RenderCluster(id, spec, grants[|grants| - 1])
  }

  function NamespaceManifests(id: SetId, spec: Spec, grants: seq<Grant>, namespace: string): seq<Manifest> {
    if |grants| == 0 then []
    else
      NamespaceManifests(id, spec, grants[..|grants| - 1], namespace)
      + RenderNamespaced(id, spec, grants[|grants| - 1], namespace)
  }

  function ClusterSlice(id: SetId, spec: Spec): Slice {
    var manifests := ClusterManifests(id, spec, ClusterGrants(Grants(spec)));
    Slice(ClusterWorkName(id.name), CLUSTER_SLICE, "", manifests, SliceHash(manifests))
  }

  function SliceFor(id: SetId, namespace: string, manifests: seq<Manifest>): Slice {
    Slice(NamespaceWorkName(id.name, namespace), NAMESPACE_SLICE, namespace, manifests, SliceHash(manifests))
  }

  function NamespaceSlice(id: SetId, spec: Spec, cluster: string, resolve: Resolver, namespace: string): Slice {
    SliceFor(id, namespace,
             NamespaceManifests(id, spec, GrantsFor(cluster, Grants(spec), resolve, namespace), namespace))
  }

  function NamespaceSlices(id: SetId, spec: Spec, cluster: string, resolve: Resolver,
                           namespaces: seq<string>): (r: seq<Slice>)
    ensures |r| == |namespaces|
    ensures forall i :: 0 <= i < |r| ==> r[i] == NamespaceSlice(id, spec, cluster, resolve, namespaces[i])
  {
    seq(|namespaces|, i requires 0 <= i < |namespaces| => NamespaceSlice(id, spec, cluster, resolve, namespaces[i]))
  }

  predicate HasUnsupported(grants: seq<Grant>) {
    exists g | g in grants :: g.kind.UnsupportedGrant?
  }

  predicate HasFailing(cluster: string, grants: seq<Grant>, resolve: Resolver) {
    exists g | g in grants :: Fails(cluster, g, resolve)
  }

  /** Per (grant, namespace): every namespace that some grant reaches gets one slice with that namespace's grants in
      order. */
  function DesiredSlices(id: SetId, spec: Spec, cluster: string, resolve: Resolver): Compiled {
    var grants := Grants(spec);
    if HasUnsupported(grants) then Compiled([], true)
    else
      var clusterPart := if |ClusterGrants(grants)| > 0 then [ClusterSlice(id, spec)] else [];
      Compiled(clusterPart
          + NamespaceSlices(id, spec, cluster, resolve, SortedList(TargetNamespaces(cluster, grants, resolve))),
               HasFailing(cluster, grants, resolve))
  }

  // ---------------------------------------------------------------- the compiler

  lemma Snoc(cluster: string, grants: seq<Grant>, g: Grant, resolve: Resolver)
    ensures ClusterGrants(grants + [g]) == if g.kind.ClusterRoleGrant? then ClusterGrants(grants) + [g]
            else ClusterGrants(grants)
    ensures TargetNamespaces(cluster, grants + [g], resolve)
            == TargetNamespaces(cluster, grants, resolve) + OwnTargets(cluster, g, resolve)
    ensures HasFailing(cluster, grants + [g], resolve)
            == (HasFailing(cluster, grants, resolve) || Fails(cluster, g, resolve))
    ensures HasUnsupported(grants + [g]) == (HasUnsupported(grants) || g.kind.UnsupportedGrant?)
  {
    assert (grants + [g])[..|grants|] == grants;
    assert forall x :: x in grants + [g] <==> x in grants || x == g;
  }

  lemma SnocFor(cluster: string, grants: seq<Grant>, g: Grant, resolve: Resolver, namespace: string)
    ensures GrantsFor(cluster, grants + [g], resolve, namespace) ==
            if Targets(cluster, g, resolve, namespace) then GrantsFor(cluster, grants, resolve, namespace) + [g]
            else GrantsFor(cluster, grants, resolve, namespace)
  {
    assert (grants + [g])[..|grants|] == grants;
  }

  lemma SnocManifests(id: SetId, spec: Spec, grants: seq<Grant>, g: Grant, namespace: string)
    ensures ClusterManifests(id, spec, grants + [g]) == ClusterManifests(id, spec, grants) + RenderCluster(id, spec, g)
    ensures NamespaceManifests(id, spec, grants + [g], namespace) ==
            NamespaceManifests(id, spec, grants, namespace) + RenderNamespaced(id, spec, g, namespace)
  {
    assert (grants + [g])[..|grants|] == grants;
  }

  /** What the first loop has gathered after `grants`. */
  ghost predicate Collected(id: SetId, spec: Spec, cluster: string, resolve: Resolver, grants: seq<Grant>,
                            clusterManifests: seq<Manifest>, namespaceManifests: map<string, seq<Manifest>>,
                            failed: bool) {
    && clusterManifests == ClusterManifests(id, spec, ClusterGrants(grants))
    && namespaceManifests.Keys == TargetNamespaces(cluster, grants, resolve)
    && (forall n | n in namespaceManifests ::
          namespaceManifests[n] == NamespaceManifests(id, spec, GrantsFor(cluster, grants, resolve, n), n))
    && failed == HasFailing(cluster, grants, resolve)
    && !HasUnsupported(grants)
  }

  lemma CollectedStep(id: SetId, spec: Spec, cluster: string, resolve: Resolver, grants: seq<Grant>, g: Grant,
                      clusterManifests: seq<Manifest>, namespaceManifests: map<string, seq<Manifest>>, failed: bool,
                      after: map<string, seq<Manifest>>)
    requires Collected(id, spec, cluster, resolve, grants, clusterManifests, namespaceManifests, failed)
    requires g.kind.RoleGrant? && !Fails(cluster, g, resolve)
    requires var namespaces := GrantNamespaces(cluster, g, resolve).value;
             after.Keys == namespaceManifests.Keys + (set n | n in namespaces) &&
             forall n | n in after ::
               after[n] == (if n in namespaceManifests then namespaceManifests[n] else [])
                           + if n in namespaces then RenderNamespaced(id, spec, g, n) else []
    ensures Collected(id, spec, cluster, resolve, grants + [g], clusterManifests, after, failed)
  {
    Snoc(cluster, grants, g, resolve);
    forall n | n in after
      ensures after[n] == NamespaceManifests(id, spec, GrantsFor(cluster, grants + [g], resolve, n), n)
    {
      SnocFor(cluster, grants, g, resolve, n);
      SnocManifests(id, spec, GrantsFor(cluster, grants, resolve, n), g, n);
      if n !in namespaceManifests { UntargetedIsEmpty(cluster, grants, resolve, n); }
    }
  }

  lemma CollectedOther(id: SetId, spec: Spec, cluster: string, resolve: Resolver, grants: seq<Grant>, g: Grant,
                       clusterManifests: seq<Manifest>, namespaceManifests: map<string, seq<Manifest>>, failed: bool)
    requires Collected(id, spec, cluster, resolve, grants, clusterManifests, namespaceManifests, failed)
    requires g.kind.ClusterRoleGrant? || Fails(cluster, g, resolve)
    ensures var rendered := if g.kind.ClusterRoleGrant? then RenderCluster(id, spec, g) else [];
            Collected(id, spec, cluster, resolve, grants + [g], clusterManifests + rendered, namespaceManifests, failed
                || Fails(cluster, g, resolve))
  {
    Snoc(cluster, grants, g, resolve);
    SnocManifests(id, spec, ClusterGrants(grants), g, "");
    forall n | n in namespaceManifests
      ensures GrantsFor(cluster, grants + [g], resolve, n) == GrantsFor(cluster, grants, resolve, n)
    {
      SnocFor(cluster, grants, g, resolve, n);
    }
  }

  /** One pass over the grants, appending to the list of each namespace a grant reaches. */
  method CollectManifests(id: SetId, spec: Spec, cluster: string, resolve: Resolver)
    returns (supported: bool, clusterManifests: seq<Manifest>, namespaceManifests: map<string, seq<Manifest>>,
             failed: bool)
    ensures supported == !HasUnsupported(Grants(spec))
    ensures supported
            ==> Collected(id, spec, cluster, resolve, Grants(spec), clusterManifests, namespaceManifests, failed)
  {
    var grants := Grants(spec);
    supported, clusterManifests, namespaceManifests, failed := true, [], map[], false;
    for i := 0 to |grants|
      invariant supported
      invariant Collected(id, spec, cluster, resolve, grants[..i], clusterManifests, namespaceManifests, failed)
    {
      var g := grants[i];
      assert grants[..i + 1] == grants[..i] + [g];
      match g.kind {
        case ClusterRoleGrant =>
          CollectedOther(id, spec, cluster, resolve, grants[..i], g, clusterManifests, namespaceManifests, failed);
          clusterManifests := clusterManifests + RenderCluster(id, spec, g);
        case RoleGrant =>
          var namespaces := GrantNamespaces(cluster, g, resolve);
          if namespaces.None? {
            CollectedOther(id, spec, cluster, resolve, grants[..i], g, clusterManifests, namespaceManifests, failed);
            assert clusterManifests + [] == clusterManifests;
            failed := true;
          } else {
            GrantNamespacesAscending(cluster, g, resolve);
            var after := AppendGrant(id, spec, g, namespaces.value, namespaceManifests);
            CollectedStep(id, spec, cluster, resolve, grants[..i], g, clusterManifests, namespaceManifests, failed,
                          after);
            namespaceManifests := after;
          }
        case UnsupportedGrant(_) =>
          supported := false;
          return;
      }
    }
    assert grants[..|grants|] == grants;
  }

  /** desiredRBACSlices: a grant of an unsupported type fails the whole compilation, any other failure only its
      grant. */
  method CompileSlices(id: SetId, spec: Spec, cluster: string, resolve: Resolver) returns (r: Compiled)
    ensures r == DesiredSlices(id, spec, cluster, resolve)
  {
    var supported, clusterManifests, namespaceManifests, failed := CollectManifests(id, spec, cluster, resolve);
    if !supported {
      return Compiled([], true);
    }
    CollectedSlices(id, spec, cluster, resolve, clusterManifests, namespaceManifests, failed);
    var slices := EmitSlices(id, clusterManifests, namespaceManifests);
    r := Compiled(slices, failed);
  }

  lemma CollectedSlices(id: SetId, spec: Spec, cluster: string, resolve: Resolver, clusterManifests: seq<Manifest>,
                        namespaceManifests: map<string, seq<Manifest>>, failed: bool)
    requires Collected(id, spec, cluster, resolve, Grants(spec), clusterManifests, namespaceManifests, failed)
    ensures clusterManifests == ClusterSlice(id, spec).manifests
    ensures |clusterManifests| > 0 <==> |ClusterGrants(Grants(spec))| > 0
    ensures forall n | n in namespaceManifests ::
              SliceFor(id, n, namespaceManifests[n]) == NamespaceSlice(id, spec, cluster, resolve, n)
    ensures Compiled(Emitted(id, clusterManifests, namespaceManifests), failed)
            == DesiredSlices(id, spec, cluster, resolve)
  {
    hide ClusterWorkName, NamespaceWorkName, RenderCluster, RenderNamespaced, SliceHash, GrantNamespaces;
    ClusterManifestsEmpty(id, spec, ClusterGrants(Grants(spec)));
    var sorted := SortedList(namespaceManifests.Keys);
    assert forall i :: 0 <= i < |sorted| ==> sorted[i] in sorted;
    assert Emitted(id, clusterManifests, namespaceManifests) == DesiredSlices(id, spec, cluster, resolve).slices;
  }

  ghost function Emitted(id: SetId, clusterManifests: seq<Manifest>,
                         namespaceManifests: map<string, seq<Manifest>>): seq<Slice> {
    var sorted := SortedList(namespaceManifests.Keys);
    (if |clusterManifests| > 0
     then [Slice(ClusterWorkName(id.name), CLUSTER_SLICE, "", clusterManifests, SliceHash(clusterManifests))] else [])
    + seq(|sorted|, i requires 0 <= i < |sorted| =>
        assert sorted[i] in sorted;
        SliceFor(id, sorted[i], namespaceManifests[sorted[i]]))
  }

  /** Emitting the gathered lists: the cluster slice when there is one, then the namespaces in sorted order. */
  method EmitSlices(id: SetId, clusterManifests: seq<Manifest>, namespaceManifests: map<string, seq<Manifest>>)
    returns (slices: seq<Slice>)
    ensures slices == Emitted(id, clusterManifests, namespaceManifests)
  {
    slices := [];
    if |clusterManifests| > 0 {
      slices := [Slice(ClusterWorkName(id.name), CLUSTER_SLICE, "", clusterManifests, SliceHash(clusterManifests))];
    }
    var sorted := SortedList(namespaceManifests.Keys);
    assert forall i :: 0 <= i < |sorted| ==> sorted[i] in sorted;
    var namespaceSlices := EmitNamespaceSlices(id, sorted, namespaceManifests);
    slices := slices + namespaceSlices;
  }

  method EmitNamespaceSlices(id: SetId, sorted: seq<string>, namespaceManifests: map<string, seq<Manifest>>)
    returns (slices: seq<Slice>)
    requires forall i :: 0 <= i < |sorted| ==> sorted[i] in namespaceManifests
    ensures slices
            == seq(|sorted|, i requires 0 <= i < |sorted| => SliceFor(id, sorted[i], namespaceManifests[sorted[i]]))
  {
    slices := [];
    for i := 0 to |sorted|
      invariant |slices| == i
      invariant forall k :: 0 <= k < i ==> slices[k] == SliceFor(id, sorted[k], namespaceManifests[sorted[k]])
    {
      slices := slices + [SliceFor(id, sorted[i], namespaceManifests[sorted[i]])];
    }
  }

  method AppendGrant(id: SetId, spec: Spec, g: Grant, namespaces: seq<string>, before: map<string, seq<Manifest>>)
    returns (after: map<string, seq<Manifest>>)
    requires Ascending(namespaces)
    ensures after.Keys == before.Keys + set n | n in namespaces
    ensures forall n | n in after ::
              after[n] == (if n in before then before[n] else []) + if n in namespaces
                  then RenderNamespaced(id, spec, g, n) else []
  {
    hide RenderNamespaced, Ascending;
    AscendingDistinct(namespaces);
    after := before;
    for j := 0 to |namespaces|
      invariant forall n :: n in after <==> n in before || n in namespaces[..j]
      invariant forall n | n in before && n !in namespaces[..j] :: after[n] == before[n]
      invariant forall k :: 0 <= k < j ==>
                  after[namespaces[k]]
                      == (if namespaces[k] in before then before[namespaces[k]] else [])
                          + RenderNamespaced(id, spec, g, namespaces[k])
    {
      var n := namespaces[j];
      assert n !in namespaces[..j];
      assert n in after <==> n in before;
      after := after[n := (if n in after then after[n] else []) + RenderNamespaced(id, spec, g, n)];
    }
    assert namespaces[..|namespaces|] == namespaces;
  }

  lemma GrantNamespacesAscending(cluster: string, g: Grant, resolve: Resolver)
    ensures GrantNamespaces(cluster, g, resolve).Some? ==> Ascending(GrantNamespaces(cluster, g, resolve).value)
  {
  }

  lemma {:induction false} UntargetedIsEmpty(cluster: string, grants: seq<Grant>, resolve: Resolver, namespace: string)
    ensures namespace in TargetNamespaces(cluster, grants, resolve)
            <==> GrantsFor(cluster, grants, resolve, namespace) != []
  {
    if |grants| > 0 {
      UntargetedIsEmpty(cluster, grants[..|grants| - 1], resolve, namespace);
    }
  }

  lemma ClusterManifestsEmpty(id: SetId, spec: Spec, grants: seq<Grant>)
    ensures ClusterManifests(id, spec, grants) == [] <==> grants == []
  {
  }

  /** The namespace label of a generated object comes with its digest and an annotation, or not at all. */
  predicate NamespaceTold(labels: map<string, string>, annotations: map<string, string>) {
    if TARGET_NAMESPACE in labels then
      && Get(annotations, TARGET_NAMESPACE) == Some(labels[TARGET_NAMESPACE])
      && Get(labels, TARGET_NAMESPACE_HASH) == Some(STABLE_HASH(labels[TARGET_NAMESPACE]))
    else TARGET_NAMESPACE !in annotations && TARGET_NAMESPACE_HASH !in labels
  }

  // ---------------------------------------------------------------- what the slices hold

  /** Exactly one role and binding per grant, in grant order. */
  ghost predicate PairsInOrder(manifests: seq<Manifest>, grants: seq<Grant>, render: Grant -> seq<Manifest>) {
    |manifests| == 2 * |grants| &&
    forall j {:trigger grants[j]} :: 0 <= j < |grants| ==> manifests[2 * j..2 * j + 2] == render(grants[j])
  }

  lemma {:induction false} ClusterPairs(id: SetId, spec: Spec, grants: seq<Grant>)
    ensures PairsInOrder(ClusterManifests(id, spec, grants), grants, g => RenderCluster(id, spec, g))
  {
    hide ObjectLabels, ObjectAnnotations;
    var n := |grants| - 1;
    if n >= 0 {
      ClusterPairs(id, spec, grants[..n]);
      var rest := ClusterManifests(id, spec, grants[..n]);
      forall j | 0 <= j < n
        ensures ClusterManifests(id, spec, grants)[2 * j..2 * j + 2] == RenderCluster(id, spec, grants[j])
      {
        assert grants[..n][j] == grants[j];
        assert ClusterManifests(id, spec, grants)[2 * j..2 * j + 2] == rest[2 * j..2 * j + 2];
      }
    }
  }

  lemma {:induction false} NamespacePairs(id: SetId, spec: Spec, grants: seq<Grant>, namespace: string)
    ensures PairsInOrder(NamespaceManifests(id, spec, grants, namespace), grants,
                         g => RenderNamespaced(id, spec, g, namespace))
  {
    hide ObjectLabels, ObjectAnnotations;
    var n := |grants| - 1;
    if n >= 0 {
      NamespacePairs(id, spec, grants[..n], namespace);
      var rest := NamespaceManifests(id, spec, grants[..n], namespace);
      forall j | 0 <= j < n
        ensures NamespaceManifests(id, spec, grants, namespace)[2 * j..2 * j + 2]
                == RenderNamespaced(id, spec, grants[j], namespace)
      {
        assert grants[..n][j] == grants[j];
        assert NamespaceManifests(id, spec, grants, namespace)[2 * j..2 * j + 2] == rest[2 * j..2 * j + 2];
      }
    }
  }

  /** The first `offset` slices are cluster scoped (at most one); the rest are one per reached namespace, strictly
      ascending. */
  ghost predicate WellSliced(id: SetId, spec: Spec, cluster: string, resolve: Resolver, slices: seq<Slice>) {
    var grants := Grants(spec);
    var offset := if ClusterGrants(grants) == [] then 0 else 1;
    && |slices| >= offset
    && (offset == 1 ==>
          && slices[0].sliceType == CLUSTER_SLICE
          && slices[0].targetNamespace == ""
          && PairsInOrder(slices[0].manifests, ClusterGrants(grants), g => RenderCluster(id, spec, g)))
    && (forall i :: offset <= i < |slices| ==>
          var n := slices[i].targetNamespace;
          slices[i].sliceType == NAMESPACE_SLICE && slices[i].manifests != [] &&
          PairsInOrder(slices[i].manifests, GrantsFor(cluster, grants, resolve, n),
                       g => RenderNamespaced(id, spec, g, n)))
    && (forall i, j :: offset <= i < j < |slices| ==> Before(slices[i].targetNamespace, slices[j].targetNamespace))
    && (forall g, n | g in grants && Targets(cluster, g, resolve, n) ::
        exists i :: offset <= i < |slices| && slices[i].targetNamespace == n)
  }

  lemma {:induction false} TargetedIn(cluster: string, grants: seq<Grant>, resolve: Resolver, g: Grant,
                                      namespace: string)
    requires g in grants && Targets(cluster, g, resolve, namespace)
    ensures namespace in TargetNamespaces(cluster, grants, resolve)
  {
    var n := |grants| - 1;
    if g != grants[n] {
      assert g in grants[..n];
      TargetedIn(cluster, grants[..n], resolve, g, namespace);
    }
  }

  lemma SlicesWellSliced(id: SetId, spec: Spec, cluster: string, resolve: Resolver)
    requires !HasUnsupported(Grants(spec))
    ensures WellSliced(id, spec, cluster, resolve, DesiredSlices(id, spec, cluster, resolve).slices)
  {
    hide ClusterWorkName, NamespaceWorkName, RenderCluster, RenderNamespaced, SliceHash, Before;
    var grants := Grants(spec);
    var slices := DesiredSlices(id, spec, cluster, resolve).slices;
    var sorted := SortedList(TargetNamespaces(cluster, grants, resolve));
    var offset := if ClusterGrants(grants) == [] then 0 else 1;
    ClusterPairs(id, spec, ClusterGrants(grants));
    forall i | offset <= i < |slices|
      ensures slices[i] == NamespaceSlice(id, spec, cluster, resolve, sorted[i - offset])
      ensures slices[i].manifests != []
      ensures PairsInOrder(slices[i].manifests, GrantsFor(cluster, grants, resolve, slices[i].targetNamespace),
                           g => RenderNamespaced(id, spec, g, slices[i].targetNamespace))
    {
      var n := sorted[i - offset];
      assert n in sorted;
      UntargetedIsEmpty(cluster, grants, resolve, n);
      NamespacePairs(id, spec, GrantsFor(cluster, grants, resolve, n), n);
    }
    forall g, n | g in grants && Targets(cluster, g, resolve, n)
      ensures exists i :: offset <= i < |slices| && slices[i].targetNamespace == n
    {
      TargetedIn(cluster, grants, resolve, g, n);
      assert n in sorted;
      var k :| 0 <= k < |sorted| && sorted[k] == n;
      assert slices[offset + k].targetNamespace == n;
    }
  }

  /** Names and order of the slices: a cluster slice can only come first, and namespaces ascend. */
  lemma SliceNames(id: SetId, spec: Spec, cluster: string, resolve: Resolver)
    ensures var slices := DesiredSlices(id, spec, cluster, resolve).slices;
            (forall i :: 0 <= i < |slices| ==>
               (slices[i].name == ClusterWorkName(id.name) && i == 0)
               || (slices[i].name == NamespaceWorkName(id.name, slices[i].targetNamespace)
                   && slices[i].targetNamespace in TargetNamespaces(cluster, Grants(spec), resolve)))
            && (forall i, j :: 0 <= i < j < |slices| && slices[i].name != ClusterWorkName(id.name) ==>
                  Before(slices[i].targetNamespace, slices[j].targetNamespace))
  {
    hide ClusterWorkName, NamespaceWorkName, RenderCluster, RenderNamespaced, SliceHash, Before, TargetNamespaces;
    var grants := Grants(spec);
    if !HasUnsupported(grants) {
      var slices := DesiredSlices(id, spec, cluster, resolve).slices;
      var sorted := SortedList(TargetNamespaces(cluster, grants, resolve));
      var offset := |slices| - |sorted|;
      assert offset == 1 ==> slices[0] == ClusterSlice(id, spec);
      forall i | offset <= i < |slices|
        ensures slices[i] == NamespaceSlice(id, spec, cluster, resolve, sorted[i - offset])
                && sorted[i - offset] in sorted
      {
      }
    }
  }

  // ---------------------------------------------------------------- partial failure

  function Resolvable(cluster: string, grants: seq<Grant>, resolve: Resolver): seq<Grant> {
    if |grants| == 0 then []
    else
      var rest := Resolvable(cluster, grants[..|grants| - 1], resolve);
      if Fails(cluster, grants[|grants| - 1], resolve) then rest else rest + [grants[|grants| - 1]]
  }

  lemma {:induction false} ResolvableMembers(cluster: string, grants: seq<Grant>, resolve: Resolver)
    ensures forall g :: g in Resolvable(cluster, grants, resolve) <==> g in grants && !Fails(cluster, g, resolve)
  {
    var n := |grants| - 1;
    if n >= 0 {
      ResolvableMembers(cluster, grants[..n], resolve);
      assert forall g :: g in grants <==> g in grants[..n] || g == grants[n];
    }
  }

  lemma {:induction false} ResolvableSame(cluster: string, grants: seq<Grant>, resolve: Resolver, namespace: string)
    ensures ClusterGrants(Resolvable(cluster, grants, resolve)) == ClusterGrants(grants)
    ensures TargetNamespaces(cluster, Resolvable(cluster, grants, resolve), resolve)
            == TargetNamespaces(cluster, grants, resolve)
    ensures GrantsFor(cluster, Resolvable(cluster, grants, resolve), resolve, namespace)
            == GrantsFor(cluster, grants, resolve, namespace)
  {
    var n := |grants| - 1;
    if n >= 0 {
      ResolvableSame(cluster, grants[..n], resolve, namespace);
      var r := Resolvable(cluster, grants[..n], resolve);
      Snoc(cluster, r, grants[n], resolve);
      SnocFor(cluster, r, grants[n], resolve, namespace);
    }
  }

  /** A grant that fails leaves no trace: the slices are those of the list without it, and that list compiles
      cleanly. */
  lemma FailingGrantsDropOut(id: SetId, spec: Spec, cluster: string, resolve: Resolver)
    requires !HasUnsupported(Grants(spec))
    ensures var without := spec.(rbac := Some(Resolvable(cluster, Grants(spec), resolve)));
            DesiredSlices(id, without, cluster, resolve)
                == Compiled(DesiredSlices(id, spec, cluster, resolve).slices, false)
  {
    var grants := Grants(spec);
    var without := spec.(rbac := Some(Resolvable(cluster, grants, resolve)));
    ResolvableMembers(cluster, grants, resolve);
    ResolvableSame(cluster, grants, resolve, "");
    assert !HasUnsupported(Grants(without)) && !HasFailing(cluster, Grants(without), resolve);
    SameTemplateCluster(id, spec, without, ClusterGrants(grants));
    forall n ensures NamespaceSlice(id, spec, cluster, resolve, n) == NamespaceSlice(id, without, cluster, resolve, n) {
      ResolvableSame(cluster, grants, resolve, n);
      SameTemplateNamespace(id, spec, without, GrantsFor(cluster, grants, resolve, n), n);
    }
    var sorted := SortedList(TargetNamespaces(cluster, grants, resolve));
    assert NamespaceSlices(id, spec, cluster, resolve, sorted)
        == NamespaceSlices(id, without, cluster, resolve, sorted);
  }

  lemma SameTemplateCluster(id: SetId, a: Spec, b: Spec, grants: seq<Grant>)
    requires a.template == b.template
    ensures ClusterManifests(id, a, grants) == ClusterManifests(id, b, grants)
  {
  }

  lemma SameTemplateNamespace(id: SetId, a: Spec, b: Spec, grants: seq<Grant>, namespace: string)
    requires a.template == b.template
    ensures NamespaceManifests(id, a, grants, namespace) == NamespaceManifests(id, b, grants, namespace)
  {
  }
}
