/** The hub objects the controller reads and writes, and the answers it gets from outside. */
module Model {

  datatype Option<+T> = None | Some(value: T)

  function Get<K, V>(m: map<K, V>, k: K): Option<V> {
    if k in m then Some(m[k]) else None
  }

  datatype SetId = SetId(namespace: string, name: string, uid: string)

  // ---------------------------------------------------------------- conditions

  datatype ConditionStatus = True | False | Unknown

  /** `transition` is None for the zero time. Messages are not modelled. */
  datatype Condition = Condition(status: ConditionStatus, reason: string, observedGeneration: int,
      transition: Option<int>)

  /** A condition list is a map: its type is the list key. */
  type Conditions = map<string, Condition>

  predicate ConditionTrue(conditions: Conditions, kind: string) {
    kind in conditions && conditions[kind].status == True
  }

  /** meta.SetStatusCondition: the transition time moves only when the status does. */
  function SetCondition(conditions: Conditions, kind: string, status: ConditionStatus, reason: string, generation: int,
                        now: int): Conditions {
    var transition := if kind in conditions && conditions[kind].status == status then conditions[kind].transition
        else Some(now);
    conditions[kind := Condition(status, reason, generation, transition)]
  }

  // ---------------------------------------------------------------- remote manifests

  datatype ManifestKind = RoleObject | RoleBindingObject | ClusterRoleObject | ClusterRoleBindingObject

  datatype Subject = Subject(name: string, namespace: string)

  datatype RoleRef = RoleRef(kind: ManifestKind, name: string)

  datatype Manifest = Manifest(
    kind: ManifestKind, namespace: string, name: string,
    labels: map<string, string>, annotations: map<string, string>,
    rules: seq<string>, subjects: seq<Subject>, roleRef: Option<RoleRef>)

  /** JSON bytes: what they decode to (None when they do not decode) and how they are laid out. */
  datatype Bytes = Empty | Bytes(value: Option<Manifest>, layout: nat)

  datatype RawExtension = RawExtension(raw: Bytes, obj: Option<Manifest>)

  /** How the API server lays out the JSON it stores; nothing is known about it. */
  const SERVER_LAYOUT: Manifest -> nat

  // ---------------------------------------------------------------- hub children

  datatype Kind = AccountKind | WorkKind

  datatype Key = Key(kind: Kind, cluster: string, name: string)

  datatype ChildSpec =
    | AccountSpec(rotation: bool, validity: int, ttl: Option<int>)
    | WorkSpec(propagation: string, manifests: seq<RawExtension>)

  /** `held`: some finalizer keeps the object after a delete, so that it is terminating until its agent lets go. */
  datatype Child = Child(
    labels: map<string, string>, annotations: map<string, string>, spec: ChildSpec,
    conditions: Conditions, generation: int, terminating: bool, held: bool)

  datatype Desired = Desired(key: Key, labels: map<string, string>, annotations: map<string, string>, spec: ChildSpec)

  type Store = map<Key, Child>

  // ---------------------------------------------------------------- the parent

  datatype PlacementRef = PlacementRef(name: string, strategy: string)

  datatype Template = Template(
    name: string, namespace: string, labels: map<string, string>, annotations: map<string, string>,
    rotation: Option<bool>, validity: Option<int>, ttl: Option<int>)

  datatype GrantType = RoleGrant | ClusterRoleGrant | UnsupportedGrant(text: string)

  datatype Selector = Selector(text: string, wellFormed: bool)

  datatype NamespaceIterator = NamespaceIterator(name: string, names: seq<string>, selector: Option<Selector>)

  datatype Grant = Grant(
    id: string, kind: GrantType, forEach: Option<NamespaceIterator>, name: string,
    labels: map<string, string>, annotations: map<string, string>, rules: seq<string>)

  datatype Spec = Spec(placementRefs: seq<PlacementRef>, template: Template, rbac: Option<seq<Grant>>)

  datatype Summary = Summary(
    desiredTotal: int, total: int, applied: int, available: int, degraded: int, progressing: int, updated: int)

  datatype RolloutSummary = RolloutSummary(
    total: int, updating: int, succeeded: int, failed: int, timedOut: int, conditions: Conditions)

  datatype AccessStatus = AccessStatus(desired: int, ready: int, conditions: Conditions)

  datatype PlacementStatus = PlacementStatus(
    name: string, selected: int, summary: Option<Summary>, rollout: Option<RolloutSummary>, conditions: Conditions)

  datatype Status = Status(
    observedGeneration: int, selected: int, ready: int, summary: Option<Summary>, rollout: Option<RolloutSummary>,
    access: Option<AccessStatus>, placements: seq<PlacementStatus>, conditions: Conditions)

  datatype ReplicaSet = ReplicaSet(
    id: SetId, generation: int, finalizers: set<string>, deleting: bool, spec: Spec, status: Status)

  function Grants(spec: Spec): seq<Grant> {
    if spec.rbac.Some? then spec.rbac.value else []
  }

  predicate RbacEnabled(spec: Spec) {
    |Grants(spec)| > 0
  }

  // ---------------------------------------------------------------- answers from outside

  /** One call to the API server. The calls in a pass's fault set fail, without effect on the store. */
  datatype Call =
    | GetClusterNamespace(cluster: string)
    | GetChild(key: Key)
    | CreateChild(key: Key)
    | PatchChild(key: Key)
    | DeleteChild(key: Key)
    | ListWorks
    | ListAccounts
    | PatchFinalizers
    | PatchStatus

  /** The remote namespaces a selector grant matches in a cluster; None when they cannot be read. */
  type Resolver = (string, Grant) -> Option<seq<string>>

  /** The decision groups of a placement. */
  type Groups = map<string, set<string>>

  function GroupClusters(groups: Groups): set<string> {
    set g, c | g in groups && c in groups[g] :: c
  }

  datatype RolloutState = ToApply | Progressing | Succeeded | Failed | TimeOut | Skip

  datatype ClusterStatus = ClusterStatus(cluster: string, state: RolloutState, time: Option<int>)

  datatype RolloutResult = RolloutResult(toRollout: seq<ClusterStatus>, timedOut: seq<ClusterStatus>, recheck: int)

  /** The OCM SDK's rollout algorithm applied to one ref and the observed cluster statuses; None on error. */
  type RolloutOracle = (PlacementRef, seq<ClusterStatus>) -> Option<RolloutResult>

  datatype Inputs = Inputs(
    now: int, placements: string -> Option<Groups>, sdk: RolloutOracle,
    planResolve: Resolver, planFaults: set<Call>, resolve: Resolver, faults: set<Call>)
}
