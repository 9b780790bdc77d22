/** The hub children a set wants, and how one is compared with what the hub holds. */
module Children {
  import opened Model
  import opened Names
  import opened Metadata
  import opened Rbac

  const DEFAULT_VALIDITY := 360 * 24 * 3600
  const FOREGROUND := "Foreground"
  const ACCESS_SLICE := "controller-access-rbac"

  // ---------------------------------------------------------------- builders

  predicate UsesSelector(g: Grant) {
    g.forEach.Some? && g.forEach.value.selector.Some?
  }

  predicate SelectorRbacEnabled(spec: Spec) {
    exists g | g in Grants(spec) :: UsesSelector(g)
  }

  function BuildAccount(id: SetId, spec: Spec, cluster: string, ref: string): Desired {
    var t := spec.template;
    Desired(Key(AccountKind, cluster, t.name), ChildLabels(id, ref, t.labels), ChildAnnotations(id, t.annotations),
            AccountSpec(if t.rotation.Some? then t.rotation.value else true,
                        if t.validity.Some? then t.validity.value else DEFAULT_VALIDITY, t.ttl))
  }

  function BuildAccessAccount(id: SetId, cluster: string, ref: string): Desired {
    Desired(Key(AccountKind, cluster, AccessAccountName(id.name)), ChildLabels(id, ref, map[]), SourceAnnotations(id),
            AccountSpec(true, DEFAULT_VALIDITY, None))
  }

  function WorkLabels(id: SetId, ref: string, slice: Slice): map<string, string> {
    var labels := ChildLabels(id, ref, map[])[SLICE_TYPE := slice.sliceType];
    if slice.targetNamespace == "" then labels
    else labels[TARGET_NAMESPACE := slice.targetNamespace][TARGET_NAMESPACE_HASH := STABLE_HASH(slice.targetNamespace)]
  }

  function WorkAnnotations(id: SetId, slice: Slice): map<string, string> {
    var annotations := SourceAnnotations(id)[SPEC_HASH := slice.hash];
    if slice.targetNamespace == "" then annotations else annotations[TARGET_NAMESPACE := slice.targetNamespace]
  }

  function ObjectForm(manifests: seq<Manifest>): seq<RawExtension> {
    seq(|manifests|, i requires 0 <= i < |manifests| => RawExtension(Empty, Some(manifests[i])))
  }

  function BuildWork(id: SetId, cluster: string, ref: string, slice: Slice): Desired {
    Desired(Key(WorkKind, cluster, slice.name), WorkLabels(id, ref, slice), WorkAnnotations(id, slice),
            WorkSpec(FOREGROUND, ObjectForm(slice.manifests)))
  }

  function AccessManifests(id: SetId, spec: Spec): seq<Manifest> {
    var name := AccessAccountName(id.name);
    [Manifest(ClusterRoleObject, "", name, SourceLabels(id), SourceAnnotations(id),
              ["namespaces get,list,watch"], [], None),
     Manifest(ClusterRoleBindingObject, "", name, SourceLabels(id), SourceAnnotations(id), [],
              [Subject(name, spec.template.namespace)], Some(RoleRef(ClusterRoleObject, name)))]
  }

  function AccessSlice(id: SetId, spec: Spec): Slice {
    Slice(AccessWorkName(id.name), ACCESS_SLICE, "", AccessManifests(id, spec), SliceHash(AccessManifests(id, spec)))
  }

  function BuildAccessWork(id: SetId, spec: Spec, cluster: string, ref: string): Desired {
    BuildWork(id, cluster, ref, AccessSlice(id, spec))
  }

  /** The credentials the controller itself needs in a cluster before it can resolve namespace selectors there. */
  function AccessChildren(id: SetId, spec: Spec, cluster: string, ref: string): seq<Desired> {
    if SelectorRbacEnabled(spec) then [BuildAccessAccount(id, cluster, ref), BuildAccessWork(id, spec, cluster, ref)]
        else []
  }

  function SliceChildren(id: SetId, cluster: string, ref: string, slices: seq<Slice>): (r: seq<Desired>)
    ensures |r| == |slices|
    ensures forall i :: 0 <= i < |r| ==> r[i] == BuildWork(id, cluster, ref, slices[i])
  {
    seq(|slices|, i requires 0 <= i < |slices| => BuildWork(id, cluster, ref, slices[i]))
  }

  /** All children of one cluster, in the order in which they are ensured. */
  function DesiredChildren(id: SetId, spec: Spec, cluster: string, ref: string, slices: seq<Slice>): seq<Desired> {
    AccessChildren(id, spec, cluster, ref) + [BuildAccount(id, spec, cluster, ref)]
        + SliceChildren(id, cluster, ref, slices)
  }

  function DesiredAccountNames(id: SetId, spec: Spec): set<string> {
    {spec.template.name} + if SelectorRbacEnabled(spec) then {AccessAccountName(id.name)} else {}
  }

  function DesiredWorkNames(id: SetId, spec: Spec, slices: seq<Slice>): set<string> {
    (if SelectorRbacEnabled(spec) then {AccessWorkName(id.name)} else {}) + set s | s in slices :: s.name
  }

  lemma WorkOwned(id: SetId, cluster: string, ref: string, slice: Slice)
    ensures Owner(BuildWork(id, cluster, ref, slice).labels) == Some(id)
  {
    KeysDistinct();
    ChildLabelsOwned(id, ref, map[]);
  }

  /** Every child is one of four kinds, and all of them are there. */
  lemma DesiredChildrenForms(id: SetId, spec: Spec, cluster: string, ref: string, slices: seq<Slice>, d: Desired)
    ensures d in DesiredChildren(id, spec, cluster, ref, slices) <==>
            d == BuildAccount(id, spec, cluster, ref)
            || d in AccessChildren(id, spec, cluster, ref)
            || d in SliceChildren(id, cluster, ref, slices)
  {
  }

  /** Every child is labelled as the set's own, lies in its cluster and bears a desired name. */
  lemma DesiredChildOwned(id: SetId, spec: Spec, cluster: string, ref: string, slices: seq<Slice>, d: Desired)
    requires d in DesiredChildren(id, spec, cluster, ref, slices)
    ensures Owner(d.labels) == Some(id) && d.key.cluster == cluster
    ensures d.key.kind.AccountKind? ==> d.key.name in DesiredAccountNames(id, spec)
    ensures d.key.kind.WorkKind? ==> d.key.name in DesiredWorkNames(id, spec, slices)
  {
    hide AccessAccountName, AccessWorkName, Owner, ChildLabels, SliceHash, AccessManifests, DesiredChildren;
    DesiredChildrenForms(id, spec, cluster, ref, slices, d);
    ChildLabelsOwned(id, ref, spec.template.labels);
    ChildLabelsOwned(id, ref, map[]);
    if d in SliceChildren(id, cluster, ref, slices) {
      var i :| 0 <= i < |slices| && d == SliceChildren(id, cluster, ref, slices)[i];
      WorkOwned(id, cluster, ref, slices[i]);
    } else if d in AccessChildren(id, spec, cluster, ref) {
      WorkOwned(id, cluster, ref, AccessSlice(id, spec));
    }
  }

  /** Conversely every desired name has its child. */
  lemma DesiredAccountCovered(id: SetId, spec: Spec, cluster: string, ref: string, slices: seq<Slice>, name: string)
    requires name in DesiredAccountNames(id, spec)
    ensures exists d | d in DesiredChildren(id, spec, cluster, ref, slices) :: d.key == Key(AccountKind, cluster, name)
  {
    var d := if name == spec.template.name then BuildAccount(id, spec, cluster, ref)
        else BuildAccessAccount(id, cluster, ref);
    assert name != spec.template.name ==> d == AccessChildren(id, spec, cluster, ref)[0];
    DesiredChildrenForms(id, spec, cluster, ref, slices, d);
    assert d.key == Key(AccountKind, cluster, name);
  }

  lemma DesiredWorkCovered(id: SetId, spec: Spec, cluster: string, ref: string, slices: seq<Slice>, name: string)
    requires name in DesiredWorkNames(id, spec, slices)
    ensures exists d | d in DesiredChildren(id, spec, cluster, ref, slices) :: d.key == Key(WorkKind, cluster, name)
  {
    if s :| s in slices && s.name == name {
      var i :| 0 <= i < |slices| && slices[i] == s;
      var d := SliceChildren(id, cluster, ref, slices)[i];
      DesiredChildrenForms(id, spec, cluster, ref, slices, d);
      assert d.key == Key(WorkKind, cluster, name);
    } else {
      var d := AccessChildren(id, spec, cluster, ref)[1];
      DesiredChildrenForms(id, spec, cluster, ref, slices, d);
      assert d.key == Key(WorkKind, cluster, name);
    }
  }

  ghost predicate DistinctKeys(ds: seq<Desired>) {
    forall i, j :: 0 <= i < j < |ds| ==> ds[i].key != ds[j].key
  }

  /** Children that share a key are the same child. */
  ghost predicate KeysAgree(ds: seq<Desired>) {
    forall i, j | 0 <= i < |ds| && 0 <= j < |ds| && ds[i].key == ds[j].key :: ds[i] == ds[j]
  }

  /** Whatever shares the key of the i-th child is that child. */
  ghost predicate KeyAgrees(ds: seq<Desired>, i: nat)
    requires i < |ds|
  {
    forall j | 0 <= j < |ds| && ds[j].key == ds[i].key :: ds[j] == ds[i]
  }

  ghost predicate WorksAgree(ds: seq<Desired>) {
    forall i | 0 <= i < |ds| && ds[i].key.kind.WorkKind? :: KeyAgrees(ds, i)
  }

  /** A template that asks for exactly what the access account is: no label but the usual ones, no annotation, default
      rotation and no time to live. */
  predicate PlainTemplate(t: Template) {
    && (forall k | k in t.labels && k !in RESERVED :: k == SYNC_TO_CLUSTER_PROFILE && t.labels[k] == "true")
    && t.annotations.Keys <= RESERVED
    && t.rotation != Some(false) && (t.validity.None? || t.validity == Some(DEFAULT_VALIDITY)) && t.ttl.None?
  }

  /** The template does not take the access account's name, or asks for that very account. */
  predicate TemplateFits(id: SetId, spec: Spec) {
    SelectorRbacEnabled(spec) && spec.template.name == AccessAccountName(id.name) ==> PlainTemplate(spec.template)
  }

  ghost predicate DigestsApart(id: SetId, spec: Spec, cluster: string, resolve: Resolver) {
    HashSeparates(HashedNames(id.name, TargetNamespaces(cluster, Grants(spec), resolve)))
  }

  /** What keeps different children of a cluster apart: no digest collision, and a template that fits. */
  ghost predicate NamesApart(id: SetId, spec: Spec, cluster: string, resolve: Resolver) {
    DigestsApart(id, spec, cluster, resolve) && TemplateFits(id, spec)
  }

  lemma PlainLabels(id: SetId, ref: string, extra: map<string, string>)
    ensures ChildLabels(id, ref, extra) == ChildLabels(id, ref, map[])
            <==> forall k | k in extra && k !in RESERVED :: k == SYNC_TO_CLUSTER_PROFILE && extra[k] == "true"
  {
    KeysDistinct();
    var labels, plain := ChildLabels(id, ref, extra), ChildLabels(id, ref, map[]);
    var own := SourceLabels(id)[PLACEMENT_REF_NAME := ref];
    assert own.Keys <= RESERVED && SYNC_TO_CLUSTER_PROFILE !in RESERVED;
    assert plain == own[SYNC_TO_CLUSTER_PROFILE := "true"];
    forall k | k in extra && k !in RESERVED ensures k in labels && labels[k] == extra[k] {
      ChildLabelsKeepUserKeys(id, ref, extra, k);
    }
    if labels == plain {
      forall k | k in extra && k !in RESERVED ensures k == SYNC_TO_CLUSTER_PROFILE && extra[k] == "true" {
        assert k in plain && k !in own;
      }
    }
  }

  lemma PlainAnnotations(id: SetId, extra: map<string, string>)
    ensures ChildAnnotations(id, extra) == SourceAnnotations(id) <==> extra.Keys <= RESERVED
  {
    assert SourceAnnotations(id).Keys <= RESERVED;
    if !(extra.Keys <= RESERVED) {
      var k :| k in extra && k !in RESERVED;
      assert k in ChildAnnotations(id, extra) && k !in SourceAnnotations(id);
    }
  }

  /** Under one name the two accounts are the same exactly if the template is plain. */
  lemma SameAccountExactly(id: SetId, spec: Spec, cluster: string, ref: string)
    requires spec.template.name == AccessAccountName(id.name)
    ensures BuildAccount(id, spec, cluster, ref) == BuildAccessAccount(id, cluster, ref)
            <==> PlainTemplate(spec.template)
  {
    hide ChildLabels, ChildAnnotations, AccessAccountName;
    PlainLabels(id, ref, spec.template.labels);
    PlainAnnotations(id, spec.template.annotations);
  }

  lemma SliceNamesDistinct(id: SetId, spec: Spec, cluster: string, resolve: Resolver)
    requires DigestsApart(id, spec, cluster, resolve)
    ensures var slices := DesiredSlices(id, spec, cluster, resolve).slices;
            (forall i, j :: 0 <= i < j < |slices| ==> slices[i].name != slices[j].name)
            && (forall i :: 0 <= i < |slices| ==> slices[i].name != AccessWorkName(id.name))
  {
    var slices := DesiredSlices(id, spec, cluster, resolve).slices;
    SliceNames(id, spec, cluster, resolve);
    WorkNamesDistinct(id.name, TargetNamespaces(cluster, Grants(spec), resolve));
    forall i, j | 0 <= i < j < |slices| ensures slices[i].name != slices[j].name {
      if slices[i].targetNamespace == slices[j].targetNamespace {
        BeforeIrreflexive(slices[j].targetNamespace);
      }
    }
  }

  /** An account between access children and works that have distinct keys: all keys agree exactly if the account shares
      its key with an access child only when it is that child. */
  lemma ConcatAgree(access: seq<Desired>, account: Desired, works: seq<Desired>)
    requires DistinctKeys(access) && DistinctKeys(works)
    requires account.key.kind.AccountKind? && forall i :: 0 <= i < |works| ==> works[i].key.kind.WorkKind?
    requires forall i, j :: 0 <= i < |access| && 0 <= j < |works| ==> access[i].key != works[j].key
    ensures KeysAgree(access + [account] + works)
            <==> forall i | 0 <= i < |access| && access[i].key == account.key :: access[i] == account
  {
    var ds, n := access + [account] + works, |access| + 1;
    assert forall i :: 0 <= i < |access| ==> ds[i] == access[i];
    assert ds[|access|] == account;
    if forall i | 0 <= i < |access| && access[i].key == account.key :: access[i] == account {
      forall i, j | 0 <= i < |ds| && 0 <= j < |ds| && ds[i].key == ds[j].key ensures ds[i] == ds[j] {
        if j >= n { assert ds[j] == works[j - n]; }
        if i >= n { assert ds[i] == works[i - n]; }
      }
    }
    if KeysAgree(ds) {
      forall i | 0 <= i < |access| && access[i].key == account.key ensures access[i] == account {
        assert ds[i].key == ds[|access|].key;
      }
    }
  }

  lemma AccessKeys(id: SetId, spec: Spec, cluster: string, ref: string)
    ensures var access := AccessChildren(id, spec, cluster, ref);
            access == [] || (SelectorRbacEnabled(spec) && |access| == 2
                             && access[0].key == Key(AccountKind, cluster, AccessAccountName(id.name))
                             && access[1].key == Key(WorkKind, cluster, AccessWorkName(id.name)))
  {
  }

  lemma SliceKeys(id: SetId, cluster: string, ref: string, slices: seq<Slice>)
    ensures forall i ::
              0 <= i < |slices| ==>
              SliceChildren(id, cluster, ref, slices)[i].key == Key(WorkKind, cluster, slices[i].name)
  {
  }

  /** Without digest collisions the children of a cluster never share a key, except when the template takes the access
      account's name; then all is well exactly if the template fits. */
  lemma DesiredKeysAgree(id: SetId, spec: Spec, cluster: string, ref: string, resolve: Resolver)
    requires DigestsApart(id, spec, cluster, resolve)
    ensures KeysAgree(DesiredChildren(id, spec, cluster, ref, DesiredSlices(id, spec, cluster, resolve).slices))
            <==> TemplateFits(id, spec)
  {
    hide DesiredSlices, PlainTemplate, DigestsApart;
    var slices := DesiredSlices(id, spec, cluster, resolve).slices;
    SliceNamesDistinct(id, spec, cluster, resolve);
    KeysAgreeFor(id, spec, cluster, ref, slices);
  }

  /** The works never share a key, whatever the template. */
  lemma WorkKeysAgree(id: SetId, spec: Spec, cluster: string, ref: string, resolve: Resolver)
    requires DigestsApart(id, spec, cluster, resolve)
    ensures WorksAgree(DesiredChildren(id, spec, cluster, ref, DesiredSlices(id, spec, cluster, resolve).slices))
  {
    hide DesiredSlices, DigestsApart, AccessAccountName, AccessWorkName, AccessChildren, BuildAccount, BuildWork;
    var slices := DesiredSlices(id, spec, cluster, resolve).slices;
    SliceNamesDistinct(id, spec, cluster, resolve);
    AccessKeys(id, spec, cluster, ref);
    SliceKeys(id, cluster, ref, slices);
    AccountKeyOf(id, spec, cluster, ref);
    var ds := DesiredChildren(id, spec, cluster, ref, slices);
    var works, n := SliceChildren(id, cluster, ref, slices), |AccessChildren(id, spec, cluster, ref)| + 1;
    forall i, j | 0 <= i < |ds| && 0 <= j < |ds| && ds[i].key.kind.WorkKind? && ds[j].key == ds[i].key
      ensures ds[j] == ds[i]
    {
      assert i >= n ==> ds[i] == works[i - n];
      assert j >= n ==> ds[j] == works[j - n];
    }
  }

  lemma AccountKeyOf(id: SetId, spec: Spec, cluster: string, ref: string)
    ensures BuildAccount(id, spec, cluster, ref).key == Key(AccountKind, cluster, spec.template.name)
  {
  }

  lemma KeysAgreeFor(id: SetId, spec: Spec, cluster: string, ref: string, slices: seq<Slice>)
    requires forall i, j :: 0 <= i < j < |slices| ==> slices[i].name != slices[j].name
    requires forall i :: 0 <= i < |slices| ==> slices[i].name != AccessWorkName(id.name)
    ensures KeysAgree(DesiredChildren(id, spec, cluster, ref, slices)) <==> TemplateFits(id, spec)
  {
    hide AccessAccountName, AccessWorkName, ChildLabels, PlainTemplate, BuildWork, SelectorRbacEnabled, KeysAgree;
    var access, account := AccessChildren(id, spec, cluster, ref), BuildAccount(id, spec, cluster, ref);
    AccessKeys(id, spec, cluster, ref);
    SliceKeys(id, cluster, ref, slices);
    ConcatAgree(access, account, SliceChildren(id, cluster, ref, slices));
    if spec.template.name == AccessAccountName(id.name) {
      SameAccountExactly(id, spec, cluster, ref);
    }
  }

  // ---------------------------------------------------------------- comparison

  function Marshal(m: Manifest): Bytes {
    Bytes(Some(m), 0)
  }

  function RawJson(e: RawExtension): Bytes {
    if e.raw.Bytes? then e.raw else if e.obj.None? then Empty else Marshal(e.obj.value)
  }

  predicate RawEqual(current: RawExtension, desired: RawExtension) {
    var a, b := RawJson(current), RawJson(desired);
    if a.Empty? || b.Empty? then a == b
    else a == b || (a.value.Some? && b.value.Some? && a.value == b.value)
  }

  predicate SpecEqual(current: ChildSpec, desired: ChildSpec) {
    match (current, desired)
    case (AccountSpec(_, _, _), AccountSpec(_, _, _)) => current == desired
    case (WorkSpec(p, a), WorkSpec(q, b)) => |a| == |b| && p == q && forall i :: 0 <= i < |a| ==> RawEqual(a[i], b[i])
    case _ => false
  }

  predicate ChildMatches(current: Child, desired: Desired) {
    current.labels == desired.labels && current.annotations == desired.annotations
        && SpecEqual(current.spec, desired.spec)
  }

  method WorkSpecsEqual(current: ChildSpec, desired: ChildSpec) returns (equal: bool)
    requires current.WorkSpec? && desired.WorkSpec?
    ensures equal == SpecEqual(current, desired)
  {
    if |current.manifests| != |desired.manifests| || current.propagation != desired.propagation {
      return false;
    }
    for i := 0 to |current.manifests|
      invariant forall k :: 0 <= k < i ==> RawEqual(current.manifests[k], desired.manifests[k])
    {
      if !RawEqual(current.manifests[i], desired.manifests[i]) {
        return false;
      }
    }
    return true;
  }

  /** What the API server keeps of a manifest: bytes, in its own layout. */
  function StoredRaw(e: RawExtension): RawExtension {
    if e.raw.Bytes? || e.obj.None? then RawExtension(e.raw, None)
    else RawExtension(Bytes(e.obj, SERVER_LAYOUT(e.obj.value)), None)
  }

  function Stored(spec: ChildSpec): ChildSpec {
    match spec
    case AccountSpec(_, _, _) => spec
    case WorkSpec(p, ms) => WorkSpec(p, seq(|ms|, i requires 0 <= i < |ms| => StoredRaw(ms[i])))
  }

  /** What was written reads back as equal, however the server lays it out. */
  lemma StoredEqual(spec: ChildSpec)
    ensures SpecEqual(Stored(spec), spec)
  {
  }

  /** Between the stored form and a freshly rendered one, equality is equality of the manifests. */
  lemma StoredEqualExactly(propagation: string, stored: seq<Manifest>, other: string, rendered: seq<Manifest>)
    ensures SpecEqual(Stored(WorkSpec(propagation, ObjectForm(stored))), WorkSpec(other, ObjectForm(rendered)))
            <==> propagation == other && stored == rendered
  {
    var a, b := Stored(WorkSpec(propagation, ObjectForm(stored))), WorkSpec(other, ObjectForm(rendered));
    if SpecEqual(a, b) {
      forall i | 0 <= i < |stored| ensures stored[i] == rendered[i] {
        assert RawEqual(a.manifests[i], b.manifests[i]);
      }
    }
  }

  // ---------------------------------------------------------------- readiness

  const TOKEN_REPORTED := "TokenReported"
  const SECRET_CREATED := "SecretCreated"
  const WORK_APPLIED := "Applied"
  const WORK_AVAILABLE := "Available"
  const WORK_DEGRADED := "Degraded"
  const WORK_PROGRESSING := "Progressing"

  predicate AccountReady(c: Child) {
    ConditionTrue(c.conditions, TOKEN_REPORTED) || ConditionTrue(c.conditions, SECRET_CREATED)
  }

  /** A work condition counts only when it speaks of the current generation. */
  predicate WorkConditionTrue(c: Child, kind: string) {
    ConditionTrue(c.conditions, kind) && c.conditions[kind].observedGeneration == c.generation
  }

  predicate WorkAvailable(c: Child) {
    WorkConditionTrue(c, WORK_AVAILABLE)
  }

  predicate ChildReady(kind: Kind, c: Child) {
    if kind.AccountKind? then AccountReady(c) else WorkAvailable(c)
  }
}
