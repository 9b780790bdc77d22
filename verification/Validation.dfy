/** Validating a spec at run time (validateRuntimeSpec, validateGrantObjectNames, validateGrantMetadata). */
module Validation {
  import opened Model
  import opened Names
  import opened Metadata
  import opened Rbac
  import Children

  datatype Rejection =
    | NoPlacementRefs | UnnamedPlacementRef | UnsupportedStrategy | IncompleteTemplate
    | UnnamedGrant | DuplicateGrantId | GrantWithoutName | GrantWithoutRules | ReservedMetadata
    | RoleNeedsOneMode | ClusterRoleWithMode | UnsupportedType | DuplicateObject

  // ---------------------------------------------------------------- what is accepted

  predicate StrategyOk(ref: PlacementRef) {
    ref.name != "" && ref.strategy in {"", "All", "Progressive", "ProgressivePerGroup"}
  }

  predicate MetadataOk(g: Grant) {
    g.labels.Keys !! RESERVED_GRANT && g.annotations.Keys !! RESERVED_GRANT
  }

  function NamespaceModes(g: Grant): nat {
    if g.forEach.None? then 0
    else (if g.forEach.value.name != "" then 1 else 0) + (if |g.forEach.value.names| > 0 then 1 else 0)
         + (if g.forEach.value.selector.Some? then 1 else 0)
  }

  predicate GrantOk(g: Grant) {
    g.id != "" && g.name != "" && |g.rules| > 0 && MetadataOk(g)
    && match g.kind
       case RoleGrant => NamespaceModes(g) == 1
       case ClusterRoleGrant => NamespaceModes(g) == 0
       case UnsupportedGrant(_) => false
  }

  predicate IdsUnique(grants: seq<Grant>) {
    forall i, j :: 0 <= i < j < |grants| ==> grants[i].id != grants[j].id
  }

  /** Everything but the names of the rendered objects. */
  predicate OtherwiseValid(spec: Spec) {
    && |spec.placementRefs| > 0 && (forall r | r in spec.placementRefs :: StrategyOk(r))
    && spec.template.name != "" && spec.template.namespace != ""
    && (forall g | g in Grants(spec) :: GrantOk(g)) && IdsUnique(Grants(spec))
  }

  /** The namespaces a Role grant lists itself; those a selector would choose are not seen. */
  function FixedNamespaces(g: Grant): set<string> {
    if g.forEach.None? then {}
    else (if g.forEach.value.name != "" then {g.forEach.value.name} else {}) + set n | n in g.forEach.value.names
  }

  function ObjectKeys(g: Grant): set<string> {
    if g.kind.RoleGrant? then set n | n in FixedNamespaces(g) :: n + "/" + g.name else {}
  }

  predicate Clash(a: Grant, b: Grant) {
    (a.kind.ClusterRoleGrant? && b.kind.ClusterRoleGrant? && a.name == b.name) || !(ObjectKeys(a) !! ObjectKeys(b))
  }

  predicate ObjectNamesUnique(grants: seq<Grant>) {
    forall i, j :: 0 <= i < j < |grants| ==> !Clash(grants[i], grants[j])
  }

  predicate GrantFault(g: Grant, why: Rejection) {
    match why
    case UnnamedGrant => g.id == ""
    case GrantWithoutName => g.name == ""
    case GrantWithoutRules => |g.rules| == 0
    case ReservedMetadata => !MetadataOk(g)
    case RoleNeedsOneMode => g.kind.RoleGrant? && NamespaceModes(g) != 1
    case ClusterRoleWithMode => g.kind.ClusterRoleGrant? && NamespaceModes(g) != 0
    case UnsupportedType => g.kind.UnsupportedGrant?
    case _ => false
  }

  /** What a rejection says is wrong really is. */
  predicate Justified(spec: Spec, why: Rejection) {
    var refs, grants := spec.placementRefs, Grants(spec);
    match why
    case NoPlacementRefs => |refs| == 0
    case UnnamedPlacementRef => exists r | r in refs :: r.name == ""
    case UnsupportedStrategy => exists r | r in refs :: r.name != "" && !StrategyOk(r)
    case IncompleteTemplate => spec.template.name == "" || spec.template.namespace == ""
    case DuplicateGrantId => !IdsUnique(grants)
    case DuplicateObject => !ObjectNamesUnique(grants)
    case _ => exists g | g in grants :: GrantFault(g, why)
  }

  lemma GrantOkExactly(g: Grant)
    ensures GrantOk(g) <==> forall why :: !GrantFault(g, why)
  {
    hide MetadataOk, NamespaceModes;
    if forall why :: !GrantFault(g, why) {
      assert !GrantFault(g, UnnamedGrant) && !GrantFault(g, GrantWithoutName) && !GrantFault(g, GrantWithoutRules);
      assert !GrantFault(g, ReservedMetadata) && !GrantFault(g, UnsupportedType);
      assert !GrantFault(g, RoleNeedsOneMode) && !GrantFault(g, ClusterRoleWithMode);
    }
  }

  lemma FaultJustifies(spec: Spec, g: Grant, why: Rejection)
    requires g in Grants(spec) && GrantFault(g, why)
    ensures Justified(spec, why)
  {
    hide MetadataOk, NamespaceModes;
  }

  /** A spec is valid exactly if no rejection of it would be justified. */
  lemma ValidExactly(spec: Spec)
    ensures OtherwiseValid(spec) && ObjectNamesUnique(Grants(spec)) <==> forall why :: !Justified(spec, why)
  {
    hide GrantOk, GrantFault, ObjectNamesUnique, IdsUnique;
    forall g { GrantOkExactly(g); }
    if forall why :: !Justified(spec, why) {
      assert !Justified(spec, NoPlacementRefs) && !Justified(spec, UnnamedPlacementRef);
      assert !Justified(spec, UnsupportedStrategy) && !Justified(spec, IncompleteTemplate);
      assert !Justified(spec, DuplicateGrantId) && !Justified(spec, DuplicateObject);
      forall g, why | g in Grants(spec) ensures !GrantFault(g, why) {
        if GrantFault(g, why) { FaultJustifies(spec, g, why); }
      }
    }
  }

  // ---------------------------------------------------------------- the validators

  method ValidateRuntimeSpec(spec: Spec) returns (r: Option<Rejection>)
    ensures r.None? <==> OtherwiseValid(spec) && ObjectNamesUnique(Grants(spec))
    ensures r.Some? ==> Justified(spec, r.value)
  {
    if |spec.placementRefs| == 0 {
      return Some(NoPlacementRefs);
    }
    for i := 0 to |spec.placementRefs|
      invariant forall k :: 0 <= k < i ==> StrategyOk(spec.placementRefs[k])
    {
      var ref := spec.placementRefs[i];
      assert ref in spec.placementRefs;
      if ref.name == "" {
        return Some(UnnamedPlacementRef);
      }
      if ref.strategy !in {"", "All", "Progressive", "ProgressivePerGroup"} {
        return Some(UnsupportedStrategy);
      }
    }
    if spec.template.name == "" || spec.template.namespace == "" {
      return Some(IncompleteTemplate);
    }
    var grants := Grants(spec);
    r := ValidateGrants(spec);
    if r.None? {
      r := ValidateObjectNames(grants);
    }
  }

  method ValidateGrants(spec: Spec) returns (r: Option<Rejection>)
    ensures r.None? <==> (forall g | g in Grants(spec) :: GrantOk(g)) && IdsUnique(Grants(spec))
    ensures r.Some? ==> Justified(spec, r.value)
  {
    hide MetadataOk;
    var grants := Grants(spec);
    var ids: set<string> := {};
    for i := 0 to |grants|
      invariant ids == set k | 0 <= k < i :: grants[k].id
      invariant IdsUnique(grants[..i]) && forall k :: 0 <= k < i ==> GrantOk(grants[k])
    {
      var g := grants[i];
      assert g in grants;
      if g.id == "" {
        return Some(UnnamedGrant);
      }
      if g.id in ids {
        var k :| 0 <= k < i && grants[k].id == g.id;
        return Some(DuplicateGrantId);
      }
      ids := ids + {g.id};
      var shape := ValidateGrantShape(g);
      if shape.Some? {
        return shape;
      }
    }
    assert grants[..|grants|] == grants;
    return None;
  }

  method ValidateGrantShape(g: Grant) returns (r: Option<Rejection>)
    requires g.id != ""
    ensures r.None? <==> GrantOk(g)
    ensures r.Some? ==> GrantFault(g, r.value)
  {
    if g.name == "" {
      return Some(GrantWithoutName);
    }
    if |g.rules| == 0 {
      return Some(GrantWithoutRules);
    }
    if !MetadataOk(g) {
      return Some(ReservedMetadata);
    }
    match g.kind {
      case RoleGrant => if NamespaceModes(g) != 1 { return Some(RoleNeedsOneMode); }
      case ClusterRoleGrant => if NamespaceModes(g) != 0 { return Some(ClusterRoleWithMode); }
      case UnsupportedGrant(_) => return Some(UnsupportedType);
    }
    return None;
  }

  /** One walk over the grants, remembering the cluster-wide names and the namespace/name keys met so far. */
  method ValidateObjectNames(grants: seq<Grant>) returns (r: Option<Rejection>)
    ensures r == if ObjectNamesUnique(grants) then None else Some(DuplicateObject)
  {
    hide ObjectKeys;
    var clusterNames: set<string> := {};
    var namespacedNames: set<string> := {};
    for i := 0 to |grants|
      invariant forall n ::
                n in clusterNames <==> exists k :: 0 <= k < i && grants[k].kind.ClusterRoleGrant? && grants[k].name == n
      invariant forall n :: n in namespacedNames <==> exists k :: 0 <= k < i && n in ObjectKeys(grants[k])
      invariant forall a, b :: 0 <= a < b < i ==> !Clash(grants[a], grants[b])
    {
      var g := grants[i];
      match g.kind {
        case ClusterRoleGrant =>
          NoKeys(g);
          if g.name in clusterNames {
            var k :| 0 <= k < i && grants[k].kind.ClusterRoleGrant? && grants[k].name == g.name;
            assert Clash(grants[k], grants[i]);
            return Some(DuplicateObject);
          }
          clusterNames := clusterNames + {g.name};
        case RoleGrant =>
          var duplicate, after := AddKeys(g, namespacedNames);
          if duplicate {
            var n :| n in ObjectKeys(g) && n in namespacedNames;
            var k :| 0 <= k < i && n in ObjectKeys(grants[k]);
            assert Clash(grants[k], grants[i]);
            return Some(DuplicateObject);
          }
          namespacedNames := after;
        case UnsupportedGrant(_) =>
          NoKeys(g);
      }
    }
    return None;
  }

  lemma NoKeys(g: Grant)
    ensures !g.kind.RoleGrant? ==> ObjectKeys(g) == {}
  {
  }

  method AddKeys(g: Grant, before: set<string>) returns (duplicate: bool, after: set<string>)
    requires g.kind.RoleGrant?
    ensures duplicate == !(ObjectKeys(g) !! before)
    ensures !duplicate ==> after == before + ObjectKeys(g)
  {
    hide Ascending, FixedNamespaces;
    after := before;
    var sorted := SortedList(FixedNamespaces(g));
    AscendingDistinct(sorted);
    for i := 0 to |sorted|
      invariant after == before + set k | 0 <= k < i :: sorted[k] + "/" + g.name
      invariant forall k :: 0 <= k < i ==> sorted[k] + "/" + g.name !in before
    {
      var key := sorted[i] + "/" + g.name;
      assert sorted[i] in FixedNamespaces(g);
      assert key in ObjectKeys(g);
      forall k | 0 <= k < i ensures sorted[k] + "/" + g.name != key { Extend(sorted[k], sorted[i], g.name); }
      if key in after {
        return true, after;
      }
      after := after + {key};
    }
    assert ObjectKeys(g) == set k | 0 <= k < |sorted| :: sorted[k] + "/" + g.name by {
      forall n | n in FixedNamespaces(g) ensures exists k :: 0 <= k < |sorted| && sorted[k] == n { assert n in sorted; }
      forall k | 0 <= k < |sorted| ensures sorted[k] in FixedNamespaces(g) { assert sorted[k] in sorted; }
    }
    return false, after;
  }

  // ---------------------------------------------------------------- validation is exact

  datatype ObjectId = ObjectId(kind: ManifestKind, namespace: string, name: string)

  function IdOf(m: Manifest): ObjectId {
    ObjectId(m.kind, m.namespace, m.name)
  }

  /** No two objects in all the slices of a cluster are the same remote object. */
  ghost predicate DistinctObjects(slices: seq<Slice>) {
    forall a, i, b, j | 0 <= a < |slices| && 0 <= i < |slices[a].manifests| && 0 <= b < |slices|
        && 0 <= j < |slices[b].manifests|
                        && (a != b || i != j) ::
      IdOf(slices[a].manifests[i]) != IdOf(slices[b].manifests[j])
  }

  ghost predicate SlashFree(grants: seq<Grant>) {
    forall g, n | g in grants && n in FixedNamespaces(g) :: '/' !in n
  }

  // ---- names among the grants of one slice

  ghost predicate NamesDistinct(grants: seq<Grant>) {
    forall i, j :: 0 <= i < j < |grants| ==> grants[i].name != grants[j].name
  }

  /** The grants that reach a namespace have different names. */
  ghost predicate NamesApartIn(cluster: string, grants: seq<Grant>, resolve: Resolver, namespace: string) {
    NamesDistinct(GrantsFor(cluster, grants, resolve, namespace))
  }

  lemma {:induction false} GrantsForMembers(cluster: string, grants: seq<Grant>, resolve: Resolver, namespace: string)
    ensures forall g ::
              g in GrantsFor(cluster, grants, resolve, namespace) <==>
              g in grants && Targets(cluster, g, resolve, namespace)
  {
    hide Targets;
    var n := |grants| - 1;
    if n >= 0 {
      GrantsForMembers(cluster, grants[..n], resolve, namespace);
      assert forall g :: g in grants <==> g in grants[..n] || g == grants[n];
    }
  }

  lemma {:induction false} GrantsForDistinct(cluster: string, grants: seq<Grant>, resolve: Resolver, namespace: string)
    ensures NamesDistinct(GrantsFor(cluster, grants, resolve, namespace)) <==>
            forall i, j | 0 <= i < j < |grants| && Targets(cluster, grants[i], resolve, namespace)
                && Targets(cluster, grants[j], resolve, namespace) ::
              grants[i].name != grants[j].name
  {
    hide Targets, NamesDistinct;
    NoNames();
    var n := |grants| - 1;
    if n >= 0 {
      var init, last := grants[..n], grants[n];
      GrantsForDistinct(cluster, init, resolve, namespace);
      GrantsForMembers(cluster, init, resolve, namespace);
      DistinctSnoc(GrantsFor(cluster, init, resolve, namespace), last);
      assert forall g :: g in init <==> exists i :: 0 <= i < n && grants[i] == g;
    }
  }

  lemma {:induction false} ClusterGrantsMembers(grants: seq<Grant>)
    ensures forall g :: g in ClusterGrants(grants) <==> g in grants && g.kind.ClusterRoleGrant?
  {
    var n := |grants| - 1;
    if n >= 0 {
      ClusterGrantsMembers(grants[..n]);
      assert forall g :: g in grants <==> g in grants[..n] || g == grants[n];
    }
  }

  lemma {:induction false} ClusterGrantsDistinct(grants: seq<Grant>)
    ensures NamesDistinct(ClusterGrants(grants)) <==>
            forall i, j | 0 <= i < j < |grants| && grants[i].kind.ClusterRoleGrant?
                && grants[j].kind.ClusterRoleGrant? ::
              grants[i].name != grants[j].name
  {
    hide NamesDistinct;
    NoNames();
    var n := |grants| - 1;
    if n >= 0 {
      var init, last := grants[..n], grants[n];
      ClusterGrantsDistinct(init);
      ClusterGrantsMembers(init);
      DistinctSnoc(ClusterGrants(init), last);
      assert forall g :: g in init <==> exists i :: 0 <= i < n && grants[i] == g;
    }
  }

  lemma NoNames()
    ensures NamesDistinct([])
  {
  }

  lemma DistinctSnoc(grants: seq<Grant>, last: Grant)
    ensures NamesDistinct(grants + [last]) <==> NamesDistinct(grants) && forall g | g in grants :: g.name != last.name
  {
    var all := grants + [last];
    if NamesDistinct(all) {
      forall i, j | 0 <= i < j < |grants|
        ensures grants[i].name != grants[j].name
      {
        assert all[i].name != all[j].name;
      }
      forall g | g in grants ensures g.name != last.name {
        var i :| 0 <= i < |grants| && grants[i] == g;
        assert all[i].name != all[|grants|].name;
      }
    }
  }

  // ---- ids within one list of role pairs

  /** Pairs of objects have distinct ids exactly when the grants they come from have distinct names. */
  lemma PairIdsDistinct(manifests: seq<Manifest>, grants: seq<Grant>, render: Grant -> seq<Manifest>,
                        roleKind: ManifestKind, bindingKind: ManifestKind, namespace: string)
    requires PairsInOrder(manifests, grants, render) && roleKind != bindingKind
    requires forall g :: |render(g)| == 2 && IdOf(render(g)[0]) == ObjectId(roleKind, namespace, g.name)
                         && IdOf(render(g)[1]) == ObjectId(bindingKind, namespace, g.name)
    ensures (forall i, j | 0 <= i < j < |manifests| :: IdOf(manifests[i]) != IdOf(manifests[j]))
            <==> NamesDistinct(grants)
    ensures forall i | 0 <= i < |manifests| ::
            IdOf(manifests[i]).namespace == namespace && IdOf(manifests[i]).kind in {roleKind, bindingKind}
  {
    forall i | 0 <= i < |manifests|
      ensures IdOf(manifests[i])
              == ObjectId(if i % 2 == 0 then roleKind else bindingKind, namespace, grants[i / 2].name)
    {
      var k := i / 2;
      assert manifests[2 * k..2 * k + 2] == render(grants[k]);
      assert manifests[i] == manifests[2 * k..2 * k + 2][i % 2];
    }
    if NamesDistinct(grants) {
      forall i, j | 0 <= i < j < |manifests| ensures IdOf(manifests[i]) != IdOf(manifests[j]) {
        if i % 2 == j % 2 { assert i / 2 < j / 2; }
      }
    }
    if forall i, j | 0 <= i < j < |manifests| :: IdOf(manifests[i]) != IdOf(manifests[j]) {
      forall p, q | 0 <= p < q < |grants| ensures grants[p].name != grants[q].name {
        assert IdOf(manifests[2 * p]) != IdOf(manifests[2 * q]);
      }
    }
  }

  // ---- all slices

  ghost predicate SliceDistinct(s: Slice) {
    forall i, j | 0 <= i < j < |s.manifests| :: IdOf(s.manifests[i]) != IdOf(s.manifests[j])
  }

  ghost predicate IdsWithin(s: Slice, kinds: set<ManifestKind>) {
    forall i | 0 <= i < |s.manifests| ::
        IdOf(s.manifests[i]).namespace == s.targetNamespace && IdOf(s.manifests[i]).kind in kinds
  }

  /** Slices that differ in namespace or in kinds never share an id, so only the inside of each slice matters. */
  lemma DistinctPerSlice(slices: seq<Slice>, offset: nat)
    requires offset <= 1 && offset <= |slices|
    requires forall a :: 0 <= a < offset ==> IdsWithin(slices[a], {ClusterRoleObject, ClusterRoleBindingObject})
    requires forall a :: offset <= a < |slices| ==> IdsWithin(slices[a], {RoleObject, RoleBindingObject})
    requires forall a, b :: offset <= a < b < |slices| ==> slices[a].targetNamespace != slices[b].targetNamespace
    ensures DistinctObjects(slices) <==> forall a :: 0 <= a < |slices| ==> SliceDistinct(slices[a])
  {
    hide IdOf;
    if DistinctObjects(slices) {
      forall a | 0 <= a < |slices| ensures SliceDistinct(slices[a]) {
        forall i, j | 0 <= i < j < |slices[a].manifests|
          ensures IdOf(slices[a].manifests[i]) != IdOf(slices[a].manifests[j])
        {
        }
      }
    }
    if forall a :: 0 <= a < |slices| ==> SliceDistinct(slices[a]) {
      forall a, i, b, j | 0 <= a < |slices| && 0 <= i < |slices[a].manifests| && 0 <= b < |slices|
          && 0 <= j < |slices[b].manifests|
                          && (a != b || i != j)
        ensures IdOf(slices[a].manifests[i]) != IdOf(slices[b].manifests[j])
      {
        if a == b { assert SliceDistinct(slices[a]); }
      }
    }
  }

  /** The namespaces a selector grant is given from outside. */
  ghost predicate Selects(cluster: string, g: Grant, resolve: Resolver, namespace: string) {
    && g.forEach.Some? && g.forEach.value.selector.Some? && g.forEach.value.selector.value.wellFormed
    && resolve(cluster, g).Some? && namespace in resolve(cluster, g).value
  }

  /** A valid grant reaches exactly the namespaces it lists, or those its selector matches; it fails only through its
      selector. */
  lemma TargetsExactly(cluster: string, g: Grant, resolve: Resolver, namespace: string)
    requires GrantOk(g)
    ensures Targets(cluster, g, resolve, namespace)
            <==> g.kind.RoleGrant? && (namespace in FixedNamespaces(g) || Selects(cluster, g, resolve, namespace))
    ensures Fails(cluster, g, resolve) <==>
            g.forEach.Some? && g.forEach.value.selector.Some?
                && (g.forEach.value.selector.value.wellFormed ==> resolve(cluster, g).None?)
  {
    hide MetadataOk;
  }

  /** Two grants of one name render into the same place. */
  ghost predicate SharedTarget(cluster: string, a: Grant, b: Grant, resolve: Resolver) {
    a.name == b.name
    && ((a.kind.ClusterRoleGrant? && b.kind.ClusterRoleGrant?)
        || exists n :: Targets(cluster, a, resolve, n) && Targets(cluster, b, resolve, n))
  }

  /** What each slice of a supported grant list holds, as far as ids go. */
  lemma SliceIds(id: SetId, spec: Spec, cluster: string, resolve: Resolver, a: nat)
    requires !HasUnsupported(Grants(spec))
    requires a < |DesiredSlices(id, spec, cluster, resolve).slices|
    ensures var s := DesiredSlices(id, spec, cluster, resolve).slices[a];
            var offset := if ClusterGrants(Grants(spec)) == [] then 0 else 1;
            if a < offset
            then IdsWithin(s, {ClusterRoleObject, ClusterRoleBindingObject})
                && (SliceDistinct(s) <==> NamesDistinct(ClusterGrants(Grants(spec))))
            else IdsWithin(s, {RoleObject, RoleBindingObject})
                 && (SliceDistinct(s) <==> NamesApartIn(cluster, Grants(spec), resolve, s.targetNamespace))
  {
    hide DesiredSlices, ObjectLabels, ObjectAnnotations, Targets, SliceDistinct, IdsWithin, NamesDistinct;
    SlicesWellSliced(id, spec, cluster, resolve);
    var s := DesiredSlices(id, spec, cluster, resolve).slices[a];
    var offset := if ClusterGrants(Grants(spec)) == [] then 0 else 1;
    if a < offset {
      ClusterSliceIds(id, spec, s, ClusterGrants(Grants(spec)));
    } else {
      NamespaceSliceIds(id, spec, s, GrantsFor(cluster, Grants(spec), resolve, s.targetNamespace));
    }
  }

  lemma ClusterSliceIds(id: SetId, spec: Spec, s: Slice, grants: seq<Grant>)
    requires s.targetNamespace == "" && PairsInOrder(s.manifests, grants, g => RenderCluster(id, spec, g))
    ensures IdsWithin(s, {ClusterRoleObject, ClusterRoleBindingObject}) && (SliceDistinct(s) <==> NamesDistinct(grants))
  {
    hide ObjectLabels, ObjectAnnotations, PairsInOrder, NamesDistinct;
    PairIdsDistinct(s.manifests, grants, g => RenderCluster(id, spec, g), ClusterRoleObject, ClusterRoleBindingObject,
                    "");
  }

  lemma NamespaceSliceIds(id: SetId, spec: Spec, s: Slice, grants: seq<Grant>)
    requires PairsInOrder(s.manifests, grants, g => RenderNamespaced(id, spec, g, s.targetNamespace))
    ensures IdsWithin(s, {RoleObject, RoleBindingObject}) && (SliceDistinct(s) <==> NamesDistinct(grants))
  {
    hide ObjectLabels, ObjectAnnotations, PairsInOrder, NamesDistinct;
    PairIdsDistinct(s.manifests, grants, g => RenderNamespaced(id, spec, g, s.targetNamespace), RoleObject,
                    RoleBindingObject, s.targetNamespace);
  }

  /** Each slice is free of repeated ids exactly when the grants it was made of have distinct names. */
  ghost predicate SliceLaw(cluster: string, grants: seq<Grant>, resolve: Resolver, slices: seq<Slice>, offset: nat) {
    forall a | 0 <= a < |slices| ::
      SliceDistinct(slices[a]) <==>
        if a < offset then NamesDistinct(ClusterGrants(grants))
        else NamesApartIn(cluster, grants, resolve, slices[a].targetNamespace)
  }

  lemma SlicesFollowLaw(id: SetId, spec: Spec, cluster: string, resolve: Resolver)
    requires !HasUnsupported(Grants(spec))
    ensures var slices := DesiredSlices(id, spec, cluster, resolve).slices;
            var offset := if ClusterGrants(Grants(spec)) == [] then 0 else 1;
            SliceLaw(cluster, Grants(spec), resolve, slices, offset)
            && (DistinctObjects(slices) <==> forall a :: 0 <= a < |slices| ==> SliceDistinct(slices[a]))
  {
    hide DesiredSlices, Targets, PairsInOrder, SliceDistinct, NamesDistinct, DistinctObjects, IdsWithin;
    var slices := DesiredSlices(id, spec, cluster, resolve).slices;
    var offset := if ClusterGrants(Grants(spec)) == [] then 0 else 1;
    SlicesWellSliced(id, spec, cluster, resolve);
    forall a | 0 <= a < |slices| { SliceIds(id, spec, cluster, resolve, a); }
    forall a, b | offset <= a < b < |slices| ensures slices[a].targetNamespace != slices[b].targetNamespace {
      BeforeIrreflexive(slices[a].targetNamespace);
    }
    DistinctPerSlice(slices, offset);
  }

  lemma LawCoversAll(id: SetId, spec: Spec, cluster: string, resolve: Resolver)
    requires !HasUnsupported(Grants(spec))
    ensures var slices := DesiredSlices(id, spec, cluster, resolve).slices;
            (forall a :: 0 <= a < |slices| ==> SliceDistinct(slices[a])) <==>
            NamesDistinct(ClusterGrants(Grants(spec))) && forall n :: NamesApartIn(cluster, Grants(spec), resolve, n)
  {
    hide DesiredSlices, Targets, PairsInOrder, SliceDistinct, DistinctObjects;
    var grants, slices := Grants(spec), DesiredSlices(id, spec, cluster, resolve).slices;
    var offset := if ClusterGrants(grants) == [] then 0 else 1;
    SlicesWellSliced(id, spec, cluster, resolve);
    SlicesFollowLaw(id, spec, cluster, resolve);
    if NamesDistinct(ClusterGrants(grants)) && forall n :: NamesApartIn(cluster, grants, resolve, n) {
      forall a | 0 <= a < |slices| ensures SliceDistinct(slices[a]) {
        assert NamesApartIn(cluster, grants, resolve, slices[a].targetNamespace);
      }
    }
    if forall a :: 0 <= a < |slices| ==> SliceDistinct(slices[a]) {
      assert offset == 1 ==> SliceDistinct(slices[0]);
      forall n ensures NamesApartIn(cluster, grants, resolve, n) {
        ReachedOrEmpty(id, spec, cluster, resolve, n);
        if a :| offset <= a < |slices| && slices[a].targetNamespace == n { assert SliceDistinct(slices[a]); }
      }
    }
  }

  /** No two grants of one name render into the same place of a cluster. */
  ghost predicate NoSharedTarget(cluster: string, grants: seq<Grant>, resolve: Resolver) {
    forall i, j :: 0 <= i < j < |grants| ==> !SharedTarget(cluster, grants[i], grants[j], resolve)
  }

  lemma NoSharedTargetMeansDistinctNames(cluster: string, grants: seq<Grant>, resolve: Resolver)
    ensures NoSharedTarget(cluster, grants, resolve) <==>
            NamesDistinct(ClusterGrants(grants)) && forall n :: NamesApartIn(cluster, grants, resolve, n)
  {
    hide Targets, NamesDistinct;
    ClusterGrantsDistinct(grants);
    forall n { GrantsForDistinct(cluster, grants, resolve, n); }
    if NamesDistinct(ClusterGrants(grants)) && forall n :: NamesApartIn(cluster, grants, resolve, n) {
      forall i, j | 0 <= i < j < |grants| ensures !SharedTarget(cluster, grants[i], grants[j], resolve) {
        forall n | Targets(cluster, grants[i], resolve, n) && Targets(cluster, grants[j], resolve, n)
          ensures grants[i].name != grants[j].name
        {
          assert NamesApartIn(cluster, grants, resolve, n);
        }
      }
    }
    if NoSharedTarget(cluster, grants, resolve) {
      forall n ensures NamesApartIn(cluster, grants, resolve, n) {
        forall i, j | 0 <= i < j < |grants| && Targets(cluster, grants[i], resolve, n)
                      && Targets(cluster, grants[j], resolve, n)
          ensures grants[i].name != grants[j].name
        {
          assert !SharedTarget(cluster, grants[i], grants[j], resolve);
        }
      }
      forall i, j | 0 <= i < j < |grants| && grants[i].kind.ClusterRoleGrant? && grants[j].kind.ClusterRoleGrant?
        ensures grants[i].name != grants[j].name
      {
        assert !SharedTarget(cluster, grants[i], grants[j], resolve);
      }
    }
  }

  /** Whatever the grants are, the objects of a cluster are pairwise distinct exactly if no two grants of one name
      render into the same place. */
  lemma DistinctObjectsExactly(id: SetId, spec: Spec, cluster: string, resolve: Resolver)
    requires !HasUnsupported(Grants(spec))
    ensures DistinctObjects(DesiredSlices(id, spec, cluster, resolve).slices)
            <==> NoSharedTarget(cluster, Grants(spec), resolve)
  {
    hide DesiredSlices, SliceDistinct, NamesDistinct, DistinctObjects, SliceLaw, NoSharedTarget;
    NoSharedTargetMeansDistinctNames(cluster, Grants(spec), resolve);
    SlicesFollowLaw(id, spec, cluster, resolve);
    LawCoversAll(id, spec, cluster, resolve);
  }

  /** Two grants of one name, at least one of them with a selector, reach a common namespace. */
  ghost predicate SelectorClash(cluster: string, a: Grant, b: Grant, resolve: Resolver) {
    && a.name == b.name && (Children.UsesSelector(a) || Children.UsesSelector(b))
    && exists n :: Targets(cluster, a, resolve, n) && Targets(cluster, b, resolve, n)
  }

  ghost predicate NoSelectorClash(cluster: string, grants: seq<Grant>, resolve: Resolver) {
    forall i, j :: 0 <= i < j < |grants| ==> !SelectorClash(cluster, grants[i], grants[j], resolve)
  }

  /** What two valid grants share is either what the name check sees, or due to a selector. */
  lemma SharedTargetSplits(cluster: string, a: Grant, b: Grant, resolve: Resolver)
    requires GrantOk(a) && GrantOk(b)
    ensures SharedTarget(cluster, a, b, resolve) ==> Clash(a, b) || SelectorClash(cluster, a, b, resolve)
    ensures SelectorClash(cluster, a, b, resolve) ==> SharedTarget(cluster, a, b, resolve)
    ensures SlashFree([a, b]) && Clash(a, b) ==> SharedTarget(cluster, a, b, resolve)
  {
    hide MetadataOk, GrantNamespaces;
    forall n { TargetsExactly(cluster, a, resolve, n); }
    forall n { TargetsExactly(cluster, b, resolve, n); }
    hide Targets, GrantOk;
    if n :| a.name == b.name && Targets(cluster, a, resolve, n) && Targets(cluster, b, resolve, n) {
      if !Children.UsesSelector(a) && !Children.UsesSelector(b) {
        assert n + "/" + a.name in ObjectKeys(a) && n + "/" + a.name in ObjectKeys(b);
      }
    }
    if SlashFree([a, b]) && !(ObjectKeys(a) !! ObjectKeys(b)) {
      var key :| key in ObjectKeys(a) && key in ObjectKeys(b);
      var m :| m in FixedNamespaces(a) && m + "/" + a.name == key;
      var n :| n in FixedNamespaces(b) && n + "/" + b.name == key;
      assert a in [a, b] && b in [a, b];
      SlashSplit(m, a.name, n, b.name);
    }
  }

  /** The objects of an accepted spec are pairwise distinct in a cluster exactly if no two grants of one name, at least
      one of them with a selector, reach a common namespace there: the name check does not see those. */
  lemma AcceptedClashExactly(id: SetId, spec: Spec, cluster: string, resolve: Resolver)
    requires OtherwiseValid(spec) && ObjectNamesUnique(Grants(spec))
    ensures DistinctObjects(DesiredSlices(id, spec, cluster, resolve).slices)
            <==> NoSelectorClash(cluster, Grants(spec), resolve)
  {
    hide DesiredSlices, DistinctObjects, SharedTarget, SelectorClash, GrantOk, Clash;
    SupportedIfValid(spec);
    DistinctObjectsExactly(id, spec, cluster, resolve);
    var grants := Grants(spec);
    forall i, j | 0 <= i < j < |grants|
      ensures SharedTarget(cluster, grants[i], grants[j], resolve)
              <==> SelectorClash(cluster, grants[i], grants[j], resolve)
    {
      assert grants[i] in grants && grants[j] in grants;
      SharedTargetSplits(cluster, grants[i], grants[j], resolve);
    }
  }

  lemma SupportedIfValid(spec: Spec)
    requires OtherwiseValid(spec)
    ensures !HasUnsupported(Grants(spec))
  {
    hide MetadataOk;
  }

  /** On otherwise valid specs with slash-free namespaces, the rendered objects are pairwise distinct exactly if the
      name check accepts and no selector clashes; without selectors, exactly if the name check accepts. */
  lemma ValidationExact(id: SetId, spec: Spec, cluster: string, resolve: Resolver)
    requires OtherwiseValid(spec) && SlashFree(Grants(spec))
    ensures DistinctObjects(DesiredSlices(id, spec, cluster, resolve).slices)
            <==> ObjectNamesUnique(Grants(spec)) && NoSelectorClash(cluster, Grants(spec), resolve)
    ensures !Children.SelectorRbacEnabled(spec) ==>
              (ObjectNamesUnique(Grants(spec)) <==> DistinctObjects(DesiredSlices(id, spec, cluster, resolve).slices))
  {
    hide DesiredSlices, DistinctObjects, SharedTarget, GrantOk, Clash, SlashFree;
    SupportedIfValid(spec);
    DistinctObjectsExactly(id, spec, cluster, resolve);
    var grants := Grants(spec);
    forall i, j | 0 <= i < j < |grants|
      ensures SharedTarget(cluster, grants[i], grants[j], resolve)
              <==> Clash(grants[i], grants[j]) || SelectorClash(cluster, grants[i], grants[j], resolve)
    {
      assert grants[i] in grants && grants[j] in grants;
      SlashFreePair(grants, i, j);
      SharedTargetSplits(cluster, grants[i], grants[j], resolve);
    }
  }

  lemma SlashFreePair(grants: seq<Grant>, i: nat, j: nat)
    requires SlashFree(grants) && i < |grants| && j < |grants|
    ensures SlashFree([grants[i], grants[j]])
  {
    assert grants[i] in grants && grants[j] in grants;
  }

  lemma ReachedOrEmpty(id: SetId, spec: Spec, cluster: string, resolve: Resolver, namespace: string)
    requires WellSliced(id, spec, cluster, resolve, DesiredSlices(id, spec, cluster, resolve).slices)
    ensures var slices := DesiredSlices(id, spec, cluster, resolve).slices;
            var offset := if ClusterGrants(Grants(spec)) == [] then 0 else 1;
            NamesApartIn(cluster, Grants(spec), resolve, namespace)
            || exists a :: offset <= a < |slices| && slices[a].targetNamespace == namespace
  {
    hide DesiredSlices, Targets, PairsInOrder;
    var reached := GrantsFor(cluster, Grants(spec), resolve, namespace);
    GrantsForMembers(cluster, Grants(spec), resolve, namespace);
    if reached != [] { assert reached[0] in reached; }
  }

  /** Every binding refers to the role rendered just before it in the same slice, and binds the template account to
      it. */
  lemma BindingsRefer(id: SetId, spec: Spec, cluster: string, resolve: Resolver, a: nat, j: nat)
    requires !HasUnsupported(Grants(spec)) && a < |DesiredSlices(id, spec, cluster, resolve).slices|
    requires 2 * j < |DesiredSlices(id, spec, cluster, resolve).slices[a].manifests|
    ensures var manifests := DesiredSlices(id, spec, cluster, resolve).slices[a].manifests;
            && 2 * j + 1 < |manifests|
            && manifests[2 * j].kind in {RoleObject, ClusterRoleObject}
            && manifests[2 * j + 1].roleRef == Some(RoleRef(manifests[2 * j].kind, manifests[2 * j].name))
            && manifests[2 * j + 1].namespace == manifests[2 * j].namespace
            && manifests[2 * j + 1].subjects == [Subject(spec.template.name, spec.template.namespace)]
  {
    hide DesiredSlices, ObjectLabels, ObjectAnnotations, GrantsFor, Targets;
    SlicesWellSliced(id, spec, cluster, resolve);
    var s := DesiredSlices(id, spec, cluster, resolve).slices[a];
    var offset := if ClusterGrants(Grants(spec)) == [] then 0 else 1;
    var pair := s.manifests[2 * j..2 * j + 2];
    if a < offset {
      assert pair == RenderCluster(id, spec, ClusterGrants(Grants(spec))[j]);
    } else {
      assert pair == RenderNamespaced(id, spec, GrantsFor(cluster, Grants(spec), resolve, s.targetNamespace)[j],
                                      s.targetNamespace);
    }
    assert s.manifests[2 * j] == pair[0] && s.manifests[2 * j + 1] == pair[1];
  }

  /** A manifest renders a grant: same name, the grant's rules on the role, the grant's id and the set's source
      labels on both. */
  ghost predicate Renders(role: Manifest, binding: Manifest, id: SetId, g: Grant) {
    && role.name == binding.name == g.name && role.rules == g.rules && binding.rules == [] && role.subjects == []
    && GRANT_ID in role.labels && role.labels[GRANT_ID] == g.id && binding.labels == role.labels
    && Owner(role.labels) == Some(id) && binding.annotations == role.annotations
    && (forall k | k in g.labels && k !in RESERVED :: k in role.labels && role.labels[k] == g.labels[k])
    && (forall k | k in g.annotations && k !in RESERVED :: Get(role.annotations, k) == Some(g.annotations[k]))
    && NamespaceTold(role.labels, role.annotations)
    && (TARGET_NAMESPACE in role.labels <==> role.namespace != "")
    && (TARGET_NAMESPACE in role.labels ==> role.labels[TARGET_NAMESPACE] == role.namespace)
  }

  lemma PairRenders(roleKind: ManifestKind, bindingKind: ManifestKind, id: SetId, spec: Spec, g: Grant,
                    namespace: string)
    ensures var pair := RolePair(roleKind, bindingKind, id, spec, g, namespace); Renders(pair[0], pair[1], id, g)
  {
    hide ObjectLabels, ObjectAnnotations, Owner, NamespaceTold;
    ObjectLabelsFit(id, g, namespace);
    ObjectTellsNamespace(id, g, namespace);
    ObjectAnnotationsKept(id, g, namespace);
  }

  lemma ObjectTellsNamespace(id: SetId, g: Grant, namespace: string)
    ensures var labels, annotations := ObjectLabels(id, g, namespace), ObjectAnnotations(id, g, namespace);
            && (TARGET_NAMESPACE in labels <==> namespace != "")
            && (TARGET_NAMESPACE in labels ==> labels[TARGET_NAMESPACE] == namespace)
            && NamespaceTold(labels, annotations)
  {
    KeysDistinct();
    assert TARGET_NAMESPACE in RESERVED && TARGET_NAMESPACE_HASH in RESERVED;
    var plain := (Sanitized(g.labels) + SourceLabels(id))[GRANT_ID := g.id];
    assert TARGET_NAMESPACE !in plain && TARGET_NAMESPACE_HASH !in plain;
    assert TARGET_NAMESPACE !in ChildAnnotations(id, g.annotations);
  }

  lemma ObjectAnnotationsKept(id: SetId, g: Grant, namespace: string)
    ensures forall k | k in g.annotations && k !in RESERVED ::
              Get(ObjectAnnotations(id, g, namespace), k) == Some(g.annotations[k])
  {
    assert SourceAnnotations(id).Keys <= RESERVED && TARGET_NAMESPACE in RESERVED;
  }

  lemma ObjectLabelsFit(id: SetId, g: Grant, namespace: string)
    ensures var labels := ObjectLabels(id, g, namespace);
            && GRANT_ID in labels && labels[GRANT_ID] == g.id && Owner(labels) == Some(id)
            && (forall k | k in g.labels && k !in RESERVED :: k in labels && labels[k] == g.labels[k])
  {
    hide Owner;
    KeysDistinct();
    var labels := ObjectLabels(id, g, namespace);
    assert SourceLabels(id).Keys == {MANAGED_BY, PART_OF, SET_NAME, SET_NAMESPACE, SET_UID};
    assert OwnedBySet(id, labels);
    OwnedByOwner(id, labels);
  }

  /** Every pair of objects on a cluster goes back to one grant, which reaches the slice's namespace, or is cluster-
      wide for the cluster slice. */
  lemma ObjectsTraceToGrants(id: SetId, spec: Spec, cluster: string, resolve: Resolver, a: nat, j: nat)
    requires !HasUnsupported(Grants(spec)) && a < |DesiredSlices(id, spec, cluster, resolve).slices|
    requires 2 * j < |DesiredSlices(id, spec, cluster, resolve).slices[a].manifests|
    ensures var s := DesiredSlices(id, spec, cluster, resolve).slices[a];
            2 * j + 1 < |s.manifests| &&
            exists g | g in Grants(spec) ::
              Renders(s.manifests[2 * j], s.manifests[2 * j + 1], id, g)
              && (if s.sliceType == CLUSTER_SLICE then g.kind.ClusterRoleGrant?
                  else Targets(cluster, g, resolve, s.targetNamespace))
  {
    hide DesiredSlices, RolePair, GrantsFor, ClusterGrants, Targets, Renders;
    SlicesWellSliced(id, spec, cluster, resolve);
    var s := DesiredSlices(id, spec, cluster, resolve).slices[a];
    var offset := if ClusterGrants(Grants(spec)) == [] then 0 else 1;
    var pair := s.manifests[2 * j..2 * j + 2];
    SliceTypesDiffer();
    if a < offset {
      var g := ClusterGrants(Grants(spec))[j];
      ClusterGrantsMembers(Grants(spec));
      PairRenders(ClusterRoleObject, ClusterRoleBindingObject, id, spec, g, "");
      assert g in ClusterGrants(Grants(spec)) && pair == RenderCluster(id, spec, g);
    } else {
      var g := GrantsFor(cluster, Grants(spec), resolve, s.targetNamespace)[j];
      GrantsForMembers(cluster, Grants(spec), resolve, s.targetNamespace);
      PairRenders(RoleObject, RoleBindingObject, id, spec, g, s.targetNamespace);
      assert g in GrantsFor(cluster, Grants(spec), resolve, s.targetNamespace)
          && pair == RenderNamespaced(id, spec, g, s.targetNamespace);
    }
    assert s.manifests[2 * j] == pair[0] && s.manifests[2 * j + 1] == pair[1];
  }

  lemma SliceTypesDiffer()
    ensures CLUSTER_SLICE != NAMESPACE_SLICE
  {
    assert |CLUSTER_SLICE| != |NAMESPACE_SLICE|;
  }
}
