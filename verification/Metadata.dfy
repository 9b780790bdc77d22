/** Labels and annotations of generated objects (metadata.go). */
module Metadata {
  import opened Model

  const CONTROLLER := "ocm-managed-serviceaccount-replicaset-controller"
  const FINALIZER := "authentication.appthrust.io/managedserviceaccountreplicaset-cleanup"

  const MANAGED_BY := "app.kubernetes.io/managed-by"
  const PART_OF := "app.kubernetes.io/part-of"
  const SET_NAME := "authentication.appthrust.io/set-name"
  const SET_NAMESPACE := "authentication.appthrust.io/set-namespace"
  const SET_UID := "authentication.appthrust.io/set-uid"
  const PLACEMENT_REF_NAME := "authentication.appthrust.io/placement-ref-name"
  const GRANT_ID := "authentication.appthrust.io/grant-id"
  const SLICE_TYPE := "authentication.appthrust.io/slice-type"
  const TARGET_NAMESPACE := "authentication.appthrust.io/target-namespace"
  const TARGET_NAMESPACE_HASH := "authentication.appthrust.io/target-namespace-hash"
  const SYNC_TO_CLUSTER_PROFILE := "authentication.open-cluster-management.io/sync-to-clusterprofile"
  const SPEC_HASH := "authentication.appthrust.io/spec-hash"

  const RESERVED: set<string> := {
    MANAGED_BY, PART_OF, SET_NAME, SET_NAMESPACE, SET_UID, PLACEMENT_REF_NAME,
    GRANT_ID, SLICE_TYPE, TARGET_NAMESPACE, TARGET_NAMESPACE_HASH, SPEC_HASH
  }

  const RESERVED_GRANT: set<string> := RESERVED + {SYNC_TO_CLUSTER_PROFILE}

  function SourceLabels(id: SetId): map<string, string> {
    map[MANAGED_BY := CONTROLLER, PART_OF := id.name, SET_NAME := id.name, SET_NAMESPACE := id.namespace,
        SET_UID := id.uid]
  }

  function SourceAnnotations(id: SetId): map<string, string> {
    map[SET_NAME := id.name, SET_NAMESPACE := id.namespace, SET_UID := id.uid]
  }

  function Sanitized(values: map<string, string>): map<string, string> {
    map k | k in values && k !in RESERVED :: values[k]
  }

  function ChildLabels(id: SetId, ref: string, extra: map<string, string>): map<string, string> {
    var labels := Sanitized(extra) + SourceLabels(id)[PLACEMENT_REF_NAME := ref];
    if SYNC_TO_CLUSTER_PROFILE in labels then labels else labels[SYNC_TO_CLUSTER_PROFILE := "true"]
  }

  function ChildAnnotations(id: SetId, extra: map<string, string>): map<string, string> {
    Sanitized(extra) + SourceAnnotations(id)
  }

  /** The labels selector of a set, both as list filter and as ownership check. */
  predicate OwnedBySet(id: SetId, labels: map<string, string>) {
    forall k | k in SourceLabels(id) :: k in labels && labels[k] == SourceLabels(id)[k]
  }

  /** The set that an object says it was generated for, if it carries this controller's labels. */
  function Owner(labels: map<string, string>): Option<SetId> {
    if {MANAGED_BY, PART_OF, SET_NAME, SET_NAMESPACE, SET_UID} <= labels.Keys
       && labels[MANAGED_BY] == CONTROLLER && labels[PART_OF] == labels[SET_NAME]
    then Some(SetId(labels[SET_NAMESPACE], labels[SET_NAME], labels[SET_UID]))
    else None
  }

  function RequestFromSourceLabels(labels: map<string, string>): Option<(string, string)> {
    var name := if SET_NAME in labels then labels[SET_NAME] else "";
    var namespace := if SET_NAMESPACE in labels then labels[SET_NAMESPACE] else "";
    if name == "" || namespace == "" then None else Some((namespace, name))
  }

  lemma KeysDistinct()
    ensures |MANAGED_BY| == 28 && |PART_OF| == 25 && |SET_NAME| == 36 && |SET_NAMESPACE| == 41 && |SET_UID| == 35
    ensures |PLACEMENT_REF_NAME| == 46 && |GRANT_ID| == 36 && |SLICE_TYPE| == 38 && |TARGET_NAMESPACE| == 44
    ensures |TARGET_NAMESPACE_HASH| == 49 && |SYNC_TO_CLUSTER_PROFILE| == 64 && |SPEC_HASH| == 37
    ensures SET_NAME != GRANT_ID
  {
    assert SET_NAME[28] == 's' && GRANT_ID[28] == 'g';
  }

  /** Ownership names one set: no object answers to two sets' selectors. */
  lemma OwnedByOwner(id: SetId, labels: map<string, string>)
    ensures OwnedBySet(id, labels) <==> Owner(labels) == Some(id)
  {
    KeysDistinct();
    var source := SourceLabels(id);
    assert source.Keys == {MANAGED_BY, PART_OF, SET_NAME, SET_NAMESPACE, SET_UID};
    assert source[MANAGED_BY] == CONTROLLER && source[PART_OF] == id.name && source[SET_NAME] == id.name;
    assert source[SET_NAMESPACE] == id.namespace && source[SET_UID] == id.uid;
  }

  /** Whatever labels a user supplies, a generated child is owned by its own set and its events are routed back to
      it. */
  lemma ChildLabelsOwned(id: SetId, ref: string, extra: map<string, string>)
    ensures Owner(ChildLabels(id, ref, extra)) == Some(id)
    ensures id.name != "" && id.namespace != ""
            ==> RequestFromSourceLabels(ChildLabels(id, ref, extra)) == Some((id.namespace, id.name))
  {
    KeysDistinct();
    var labels := ChildLabels(id, ref, extra);
    assert OwnedBySet(id, labels);
    OwnedByOwner(id, labels);
    assert labels[SET_NAME] == id.name && labels[SET_NAMESPACE] == id.namespace;
  }

  /** User metadata survives except under the keys the controller keeps for itself. */
  lemma ChildLabelsKeepUserKeys(id: SetId, ref: string, extra: map<string, string>, k: string)
    requires k in extra && k !in RESERVED
    ensures k in ChildLabels(id, ref, extra) && ChildLabels(id, ref, extra)[k] == extra[k]
  {
    assert SourceLabels(id)[PLACEMENT_REF_NAME := ref].Keys <= RESERVED;
    assert k in Sanitized(extra);
  }

  // ---------------------------------------------------------------- the maps as the controller builds them

  method SanitizedMetadata(values: map<string, string>) returns (cleaned: map<string, string>)
    ensures cleaned == Sanitized(values)
  {
    cleaned := values;
    var keys := values.Keys;
    while keys != {}
      invariant keys <= values.Keys
      invariant cleaned == map k | k in values && (k in keys || k !in RESERVED) :: values[k]
      decreases |keys|
    {
      var key :| key in keys;
      if key in RESERVED {
        cleaned := cleaned - {key};
      }
      keys := keys - {key};
    }
  }

  /** The labels go to the child's own set and placement ref, keep what the user may set, and hold nothing else. */
  predicate LabelsFit(id: SetId, ref: string, extra: map<string, string>, labels: map<string, string>) {
    && Owner(labels) == Some(id)
    && PLACEMENT_REF_NAME in labels && labels[PLACEMENT_REF_NAME] == ref
    && (forall k | k in extra && k !in RESERVED :: k in labels && labels[k] == extra[k])
    && SYNC_TO_CLUSTER_PROFILE in labels
    && (SYNC_TO_CLUSTER_PROFILE !in extra ==> labels[SYNC_TO_CLUSTER_PROFILE] == "true")
    && labels.Keys == (extra.Keys - RESERVED)
                      + {MANAGED_BY, PART_OF, SET_NAME, SET_NAMESPACE, SET_UID, PLACEMENT_REF_NAME,
                         SYNC_TO_CLUSTER_PROFILE}
  }

  lemma ChildLabelsFit(id: SetId, ref: string, extra: map<string, string>)
    ensures LabelsFit(id, ref, extra, ChildLabels(id, ref, extra))
  {
    hide Owner;
    KeysDistinct();
    ChildLabelsOwned(id, ref, extra);
    assert Sanitized(extra).Keys == extra.Keys - RESERVED;
    forall k | k in extra && k !in RESERVED { ChildLabelsKeepUserKeys(id, ref, extra, k); }
  }

  /** That says all about them. */
  lemma ChildLabelsExactly(id: SetId, ref: string, extra: map<string, string>, labels: map<string, string>)
    ensures labels == ChildLabels(id, ref, extra) <==> LabelsFit(id, ref, extra, labels)
  {
    hide ChildLabels;
    var child := ChildLabels(id, ref, extra);
    ChildLabelsFit(id, ref, extra);
    if LabelsFit(id, ref, extra, labels) {
      assert labels.Keys == child.Keys;
      forall k | k in child ensures labels[k] == child[k] {
        assert k in extra && k !in RESERVED ==> labels[k] == extra[k] == child[k];
      }
    }
  }

  method BuildChildLabels(id: SetId, ref: string, extra: map<string, string>) returns (labels: map<string, string>)
    ensures LabelsFit(id, ref, extra, labels)
  {
    ChildLabelsFit(id, ref, extra);
    hide LabelsFit;
    var owner := SourceLabels(id);
    owner := owner[PLACEMENT_REF_NAME := ref];
    var cleaned := SanitizedMetadata(extra);
    labels := cleaned + owner;
    if SYNC_TO_CLUSTER_PROFILE !in labels {
      labels := labels[SYNC_TO_CLUSTER_PROFILE := "true"];
    }
  }
}
