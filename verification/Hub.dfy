/** The hub API as the controller uses it: ensuring one child, and deleting children (ensureChild, client Delete). */
module Hub {
  import opened Model
  import opened Metadata
  import opened Children

  /** A write request sent to the API server, whether or not it succeeded. */
  datatype Write = Create(key: Key) | Patch(key: Key) | Delete(key: Key)

  /** The children on the hub and the writes sent so far. */
  datatype HubState = HubState(store: Store, writes: set<Write>)

  datatype Outcome = Done(child: Child) | Conflict | Failed

  // ---------------------------------------------------------------- specification

  function Created(d: Desired): Child {
    Child(d.labels, d.annotations, Stored(d.spec), map[], 1, false, false)
  }

  /** A merge patch; only a change of spec moves the generation. */
  function Patched(c: Child, d: Desired): Child {
    if SpecEqual(c.spec, d.spec) then c.(labels := d.labels, annotations := d.annotations)
    else c.(labels := d.labels, annotations := d.annotations, spec := Stored(d.spec), generation := c.generation + 1)
  }

  function Ensure(h: HubState, id: SetId, d: Desired, faults: set<Call>): (HubState, Outcome) {
    if GetChild(d.key) in faults then (h, Outcome.Failed)
    else if d.key !in h.store then
      var writes := h.writes + {Create(d.key)};
      if CreateChild(d.key) in faults then (h.(writes := writes), Outcome.Failed)
      else (HubState(h.store[d.key := Created(d)], writes), Done(Created(d)))
    else
      var current := h.store[d.key];
      if !OwnedBySet(id, current.labels) then (h, Conflict)
      else if ChildMatches(current, d) then (h, Done(current))
      else
        var writes := h.writes + {Patch(d.key)};
        if PatchChild(d.key) in faults then (h.(writes := writes), Outcome.Failed)
        else (HubState(h.store[d.key := Patched(current, d)], writes), Done(Patched(current, d)))
  }

  function EnsureAll(h: HubState, id: SetId, ds: seq<Desired>, faults: set<Call>): (r: (HubState, seq<Outcome>))
    ensures |r.1| == |ds|
  {
    if |ds| == 0 then (h, [])
    else
      var (h1, os) := EnsureAll(h, id, ds[..|ds| - 1], faults);
      var (h2, o) := Ensure(h1, id, ds[|ds| - 1], faults);
      (h2, os + [o])
  }

  /** The children a set's label selector lists, of one kind. */
  function Owned(store: Store, id: SetId, kind: Kind): set<Key> {
    set k | k in store && k.kind == kind && OwnedBySet(id, store[k].labels)
  }

  /** Deleting `keys`: what nothing holds goes at once, the rest becomes terminating. */
  function DeleteAll(h: HubState, keys: set<Key>, faults: set<Call>): HubState {
    HubState(
      map k | k in h.store && (k in keys && DeleteChild(k) !in faults ==> h.store[k].held) ::
        if k in keys && DeleteChild(k) !in faults then h.store[k].(terminating := true) else h.store[k],
      h.writes + set k | k in keys :: Delete(k))
  }

  predicate DeleteFails(keys: set<Key>, faults: set<Call>) {
    exists k | k in keys :: DeleteChild(k) in faults
  }

  // ---------------------------------------------------------------- the client

  datatype SetName = SetName(namespace: string, name: string)

  function NameOf(id: SetId): SetName {
    SetName(id.namespace, id.name)
  }

  /** The sets on the hub after one was written: a deleted set goes once its last finalizer is gone. */
  function Put(sets: map<SetName, ReplicaSet>, p: ReplicaSet): map<SetName, ReplicaSet> {
    if p.deleting && p.finalizers == {} then sets - {NameOf(p.id)} else sets[NameOf(p.id) := p]
  }

  class Client {
    var sets: map<SetName, ReplicaSet>
    var store: Store
    var writes: set<Write>

    constructor (sets: map<SetName, ReplicaSet>, store: Store)
      ensures this.sets == sets && this.store == store && this.writes == {}
    {
      this.sets, this.store, this.writes := sets, store, {};
    }

    function View(): HubState
      reads this`store, this`writes
    {
      HubState(store, writes)
    }

    method PatchFinalizers(p: ReplicaSet, faults: set<Call>) returns (failed: bool)
      modifies this`sets
      ensures failed == (Call.PatchFinalizers in faults)
      ensures sets == if failed then old(sets) else Put(old(sets), p)
    {
      failed := Call.PatchFinalizers in faults;
      if !failed {
        sets := Put(sets, p);
      }
    }

    /** Nothing is sent when the status stays as it was. */
    method PatchStatus(p: ReplicaSet, status: Status, faults: set<Call>) returns (failed: bool)
      requires NameOf(p.id) in sets && sets[NameOf(p.id)] == p && !(p.deleting && p.finalizers == {})
      modifies this`sets
      ensures failed == (status != p.status && Call.PatchStatus in faults)
      ensures sets == if Call.PatchStatus in faults then old(sets) else Put(old(sets), p.(status := status))
    {
      if status == p.status {
        assert Put(sets, p.(status := status)) == sets;
        return false;
      }
      failed := Call.PatchStatus in faults;
      if !failed {
        sets := Put(sets, p.(status := status));
      }
    }

    method EnsureChild(id: SetId, d: Desired, faults: set<Call>) returns (o: Outcome)
      modifies this`store, this`writes
      ensures (View(), o) == Ensure(old(View()), id, d, faults)
    {
      if GetChild(d.key) in faults {
        return Outcome.Failed;
      }
      if d.key !in store {
        writes := writes + {Create(d.key)};
        if CreateChild(d.key) in faults {
          return Outcome.Failed;
        }
        store := store[d.key := Created(d)];
        return Done(store[d.key]);
      }
      var current := store[d.key];
      if !OwnedBySet(id, current.labels) {
        return Conflict;
      }
      var specsEqual := current.spec == d.spec;
      if current.spec.WorkSpec? && d.spec.WorkSpec? {
        specsEqual := WorkSpecsEqual(current.spec, d.spec);
      }
      if current.labels == d.labels && current.annotations == d.annotations && specsEqual {
        return Done(current);
      }
      writes := writes + {Patch(d.key)};
      if PatchChild(d.key) in faults {
        return Outcome.Failed;
      }
      store := store[d.key := Patched(current, d)];
      return Done(store[d.key]);
    }

    method DeleteOne(k: Key, faults: set<Call>) returns (failed: bool)
      modifies this`store, this`writes
      ensures View() == DeleteAll(old(View()), {k}, faults)
      ensures failed == (DeleteChild(k) in faults)
    {
      writes := writes + {Delete(k)};
      failed := DeleteChild(k) in faults;
      if !failed && k in store {
        if store[k].held {
          store := store[k := store[k].(terminating := true)];
        } else {
          store := store - {k};
        }
      }
    }

    /** Walks a listing, in whatever order it comes, and deletes what is `doomed`. */
    method DeleteWhere(listed: set<Key>, doomed: Key -> bool, faults: set<Call>) returns (saw: bool, failed: bool)
      modifies this`store, this`writes
      ensures View() == DeleteAll(old(View()), Doomed(listed, doomed), faults)
      ensures saw == (Doomed(listed, doomed) != {}) && failed == DeleteFails(Doomed(listed, doomed), faults)
    {
      hide DeleteAll, DeleteFails, Doomed;
      saw, failed := false, false;
      ghost var before := View();
      var rest := listed;
      DeleteNothing(before, listed - rest, doomed, faults);
      while rest != {}
        invariant rest <= listed
        invariant View() == DeleteAll(before, Doomed(listed - rest, doomed), faults)
        invariant saw == (Doomed(listed - rest, doomed) != {})
        invariant failed == DeleteFails(Doomed(listed - rest, doomed), faults)
        decreases |rest|
      {
        var k :| k in rest;
        DoomedStep(listed - rest, doomed, k);
        DeleteAllStep(before, Doomed(listed - rest, doomed), k, faults);
        assert listed - (rest - {k}) == (listed - rest) + {k};
        if doomed(k) {
          saw := true;
          var lost := DeleteOne(k, faults);
          failed := failed || lost;
        }
        rest := rest - {k};
      }
      assert listed - rest == listed;
    }
  }

  function Doomed(listed: set<Key>, doomed: Key -> bool): set<Key> {
    set k | k in listed && doomed(k)
  }

  lemma DeleteNothing(h: HubState, none: set<Key>, doomed: Key -> bool, faults: set<Call>)
    requires none == {}
    ensures Doomed(none, doomed) == {} && DeleteAll(h, {}, faults) == h && !DeleteFails({}, faults)
  {
  }

  lemma DoomedStep(listed: set<Key>, doomed: Key -> bool, k: Key)
    ensures Doomed(listed + {k}, doomed) == if doomed(k) then Doomed(listed, doomed) + {k} else Doomed(listed, doomed)
  {
  }

  lemma DeleteAllStep(h: HubState, done: set<Key>, k: Key, faults: set<Call>)
    ensures DeleteAll(DeleteAll(h, done, faults), {k}, faults) == DeleteAll(h, done + {k}, faults)
    ensures DeleteFails(done + {k}, faults) == (DeleteFails(done, faults) || DeleteChild(k) in faults)
  {
    var once, twice := DeleteAll(h, done, faults), DeleteAll(DeleteAll(h, done, faults), {k}, faults);
    assert twice.store.Keys == DeleteAll(h, done + {k}, faults).store.Keys;
    assert twice.writes == DeleteAll(h, done + {k}, faults).writes;
    assert k in done + {k};
  }

  // ---------------------------------------------------------------- what ensuring does to one key

  /** The outcome of one ensure depends on its own key only. */
  lemma EnsureLocal(h: HubState, g: HubState, id: SetId, d: Desired, faults: set<Call>)
    requires Get(h.store, d.key) == Get(g.store, d.key)
    ensures Ensure(h, id, d, faults).1 == Ensure(g, id, d, faults).1
    ensures Get(Ensure(h, id, d, faults).0.store, d.key) == Get(Ensure(g, id, d, faults).0.store, d.key)
    ensures forall k :: k != d.key ==> Get(Ensure(h, id, d, faults).0.store, k) == Get(h.store, k)
  {
  }

  /** Every key that is not ensured stays as it is, and every write concerns an ensured key. */
  lemma {:induction false} EnsureAllFrame(h: HubState, id: SetId, ds: seq<Desired>, faults: set<Call>)
    ensures var after := EnsureAll(h, id, ds, faults).0;
            (forall k | (forall d | d in ds :: d.key != k) :: Get(after.store, k) == Get(h.store, k))
            && h.writes <= after.writes
            && forall w | w in after.writes - h.writes :: !w.Delete? && exists d | d in ds :: d.key == w.key
  {
    var n := |ds| - 1;
    if n >= 0 {
      EnsureAllFrame(h, id, ds[..n], faults);
      assert forall d :: d in ds <==> d in ds[..n] || d == ds[n];
    }
  }

  lemma {:induction false} EnsureAllConcat(h: HubState, id: SetId, a: seq<Desired>, b: seq<Desired>, faults: set<Call>)
    ensures var first := EnsureAll(h, id, a, faults);
            var second := EnsureAll(first.0, id, b, faults);
            EnsureAll(h, id, a + b, faults) == (second.0, first.1 + second.1)
  {
    hide Ensure;
    var n := |b| - 1;
    if n < 0 {
      assert a + b == a && EnsureAll(h, id, a, faults).1 + [] == EnsureAll(h, id, a, faults).1;
    } else {
      EnsureAllConcat(h, id, a, b[..n], faults);
      assert (a + b)[..|a| + n] == a + b[..n] && (a + b)[|a| + n] == b[n];
      var first := EnsureAll(h, id, a, faults);
      var second := EnsureAll(first.0, id, b[..n], faults);
      var o := Ensure(second.0, id, b[n], faults).1;
      assert (first.1 + second.1) + [o] == first.1 + (second.1 + [o]);
    }
  }

  /** Ensuring the same child again changes nothing and comes to the same. */
  lemma EnsureTwice(h: HubState, id: SetId, d: Desired, faults: set<Call>)
    requires Owner(d.labels) == Some(id)
    ensures var (after, o) := Ensure(h, id, d, faults);
            && Ensure(after, id, d, faults).1 == o
            && Get(Ensure(after, id, d, faults).0.store, d.key) == Get(after.store, d.key)
  {
    hide Owner, OwnedBySet, Stored, SpecEqual;
    StoredEqual(d.spec);
    OwnedByOwner(id, d.labels);
  }

  /** A child whose key only that same child shares is ensured as if alone on the hub it started from. */
  lemma {:induction false} EnsuredAsAlone(h: HubState, id: SetId, ds: seq<Desired>, faults: set<Call>, i: nat)
    requires i < |ds| && KeyAgrees(ds, i) && forall d | d in ds :: Owner(d.labels) == Some(id)
    ensures EnsureAll(h, id, ds, faults).1[i] == Ensure(h, id, ds[i], faults).1
    ensures Get(EnsureAll(h, id, ds, faults).0.store, ds[i].key) == Get(Ensure(h, id, ds[i], faults).0.store, ds[i].key)
  {
    hide Owner, Ensure;
    var n := |ds| - 1;
    var before, last := EnsureAll(h, id, ds[..n], faults), ds[n];
    EnsureLocal(before.0, before.0, id, last, faults);
    if j :| 0 <= j < n && ds[j].key == ds[i].key {
      EnsuredAsAlone(h, id, ds[..n], faults, j);
      assert ds[..n][j] == ds[j] == ds[i];
      if last.key == ds[i].key {
        EnsureTwice(h, id, last, faults);
        EnsureLocal(before.0, Ensure(h, id, last, faults).0, id, last, faults);
      }
    } else {
      EnsureAllFrame(h, id, ds[..n], faults);
      EnsureLocal(before.0, h, id, last, faults);
    }
    if i < n {
      EnsuredAsAlone(h, id, ds[..n], faults, i);
      assert ds[..n][i] == ds[i];
    }
  }

  /** When children that share a key are the same, every child is ensured as if alone. */
  lemma EnsureAllPointwise(h: HubState, id: SetId, ds: seq<Desired>, faults: set<Call>, i: nat)
    requires KeysAgree(ds) && i < |ds| && forall d | d in ds :: Owner(d.labels) == Some(id)
    ensures EnsureAll(h, id, ds, faults).1[i] == Ensure(h, id, ds[i], faults).1
    ensures Get(EnsureAll(h, id, ds, faults).0.store, ds[i].key) == Get(Ensure(h, id, ds[i], faults).0.store, ds[i].key)
  {
    hide Owner, Ensure;
    EnsuredAsAlone(h, id, ds, faults, i);
  }

  /** A child that is there, owned and matching is left alone. */
  ghost predicate InPlace(store: Store, id: SetId, d: Desired) {
    d.key in store && Owner(store[d.key].labels) == Some(id) && ChildMatches(store[d.key], d)
  }

  /** A successful ensure puts its child in place. */
  lemma EnsureDone(h: HubState, id: SetId, d: Desired, faults: set<Call>)
    requires Owner(d.labels) == Some(id)
    requires Ensure(h, id, d, faults).1.Done?
    ensures var (after, o) := Ensure(h, id, d, faults);
            InPlace(after.store, id, d) && o.child == after.store[d.key]
            && o.child.labels == d.labels && o.child.annotations == d.annotations && SpecEqual(o.child.spec, d.spec)
  {
    hide Owner, OwnedBySet, Stored, SpecEqual;
    StoredEqual(d.spec);
    if d.key in h.store {
      OwnedByOwner(id, h.store[d.key].labels);
    }
  }

  // ---------------------------------------------------------------- outcomes and writes, from what is there

  /** Someone else's object holds the key. */
  ghost predicate Foreign(store: Store, id: SetId, k: Key) {
    k in store && Owner(store[k].labels) != Some(id)
  }

  /** The set's own child is there, but not as wanted. */
  ghost predicate Outdated(store: Store, id: SetId, d: Desired) {
    && d.key in store && Owner(store[d.key].labels) == Some(id)
    && !(store[d.key].labels == d.labels && store[d.key].annotations == d.annotations
         && SpecEqual(store[d.key].spec, d.spec))
  }

  /** A call fails that ensuring the child takes. */
  ghost predicate CallFails(store: Store, id: SetId, d: Desired, faults: set<Call>) {
    || GetChild(d.key) in faults
    || (d.key !in store && CreateChild(d.key) in faults)
    || (Outdated(store, id, d) && PatchChild(d.key) in faults)
  }

  /** A write that ensuring the child sends. */
  ghost predicate Sends(store: Store, id: SetId, d: Desired, faults: set<Call>, w: Write) {
    && GetChild(d.key) !in faults
    && ((w == Create(d.key) && d.key !in store) || (w == Patch(d.key) && Outdated(store, id, d)))
  }

  /** The outcome is a failure exactly if a call fails, and a conflict exactly if someone else's object is in the way;
      and what is sent. */
  lemma OutcomeExactly(h: HubState, id: SetId, d: Desired, faults: set<Call>)
    ensures var (after, o) := Ensure(h, id, d, faults);
            && (o.Failed? <==> CallFails(h.store, id, d, faults))
            && (o.Conflict? <==> GetChild(d.key) !in faults && Foreign(h.store, id, d.key))
            && (forall w :: w in after.writes <==> w in h.writes || Sends(h.store, id, d, faults, w))
  {
    hide Owner, OwnedBySet, SpecEqual, Stored;
    if d.key in h.store { OwnedByOwner(id, h.store[d.key].labels); }
  }

  /** Ensuring takes no key over from anyone else, and gives none away. */
  lemma {:induction false} ForeignStays(h: HubState, id: SetId, ds: seq<Desired>, faults: set<Call>, k: Key)
    requires forall d | d in ds :: Owner(d.labels) == Some(id)
    ensures Foreign(EnsureAll(h, id, ds, faults).0.store, id, k) <==> Foreign(h.store, id, k)
  {
    hide Owner, Ensure;
    var n := |ds| - 1;
    if n >= 0 {
      ForeignStays(h, id, ds[..n], faults, k);
      EnsureEffect(EnsureAll(h, id, ds[..n], faults).0, id, ds[n], faults);
    }
  }

  /** There is a conflict exactly if a key is someone else's, also when children share keys. */
  lemma {:induction false} ConflictsExactly(h: HubState, id: SetId, ds: seq<Desired>, faults: set<Call>, i: nat)
    requires i < |ds| && forall d | d in ds :: Owner(d.labels) == Some(id)
    ensures EnsureAll(h, id, ds, faults).1[i].Conflict?
            <==> GetChild(ds[i].key) !in faults && Foreign(h.store, id, ds[i].key)
  {
    hide Owner, Ensure, Foreign;
    var n := |ds| - 1;
    if i < n {
      ConflictsExactly(h, id, ds[..n], faults, i);
    } else {
      ForeignStays(h, id, ds[..n], faults, ds[n].key);
      OutcomeExactly(EnsureAll(h, id, ds[..n], faults).0, id, ds[n], faults);
    }
  }

  /** A create or patch that fails is a failure, whatever else is ensured. */
  ghost predicate WriteFails(w: Write, faults: set<Call>) {
    match w
    case Create(k) => CreateChild(k) in faults
    case Patch(k) => PatchChild(k) in faults
    case Delete(k) => DeleteChild(k) in faults
  }

  lemma {:induction false} FailedWriteFails(h: HubState, id: SetId, ds: seq<Desired>, faults: set<Call>, w: Write)
    requires w in EnsureAll(h, id, ds, faults).0.writes - h.writes && WriteFails(w, faults)
    ensures exists o | o in EnsureAll(h, id, ds, faults).1 :: o.Failed?
  {
    var n := |ds| - 1;
    if n >= 0 {
      var before := EnsureAll(h, id, ds[..n], faults);
      var all := EnsureAll(h, id, ds, faults).1;
      OutcomeExactly(before.0, id, ds[n], faults);
      if w in before.0.writes {
        FailedWriteFails(h, id, ds[..n], faults, w);
        var o :| o in before.1 && o.Failed?;
        assert o in all;
      } else {
        assert all[n] in all && all[n].Failed?;
      }
    }
  }

  /** When children that share a key are the same: what is sent, from what was there at first. */
  lemma {:induction false} SentExactly(h: HubState, id: SetId, ds: seq<Desired>, faults: set<Call>, w: Write)
    requires KeysAgree(ds) && forall d | d in ds :: Owner(d.labels) == Some(id)
    ensures w in EnsureAll(h, id, ds, faults).0.writes
            <==> w in h.writes || exists d | d in ds :: Sends(h.store, id, d, faults, w)
  {
    hide Owner, Ensure, Sends;
    var n := |ds| - 1;
    if n >= 0 {
      var before, last := EnsureAll(h, id, ds[..n], faults).0, ds[n];
      assert forall d :: d in ds <==> d in ds[..n] || d == last;
      SentExactly(h, id, ds[..n], faults, w);
      OutcomeExactly(before, id, last, faults);
      if j :| 0 <= j < n && ds[j].key == last.key {
        assert ds[..n][j] == ds[j] == last;
        EnsureAllPointwise(h, id, ds[..n], faults, j);
        SentAgain(h, before, id, last, faults, w);
      } else {
        EnsureAllFrame(h, id, ds[..n], faults);
        assert forall d | d in ds[..n] :: d.key != last.key;
        SendsAsBefore(h.store, before.store, id, last, faults, w);
      }
    }
  }

  lemma SendsAsBefore(a: Store, b: Store, id: SetId, d: Desired, faults: set<Call>, w: Write)
    requires Get(a, d.key) == Get(b, d.key)
    ensures Sends(a, id, d, faults, w) <==> Sends(b, id, d, faults, w)
  {
    hide Owner, SpecEqual;
  }

  /** What is sent for a child that has been ensured before was sent for it then. */
  lemma SentAgain(h: HubState, g: HubState, id: SetId, d: Desired, faults: set<Call>, w: Write)
    requires Owner(d.labels) == Some(id) && Get(g.store, d.key) == Get(Ensure(h, id, d, faults).0.store, d.key)
    ensures Sends(g.store, id, d, faults, w) ==> Sends(h.store, id, d, faults, w)
  {
    hide Owner, OwnedBySet, SpecEqual, Stored;
    StoredEqual(d.spec);
    OwnedByOwner(id, d.labels);
    if d.key in h.store { OwnedByOwner(id, h.store[d.key].labels); }
  }

  /** A patch keeps what agents report, and deletion; the generation moves exactly if the spec does. */
  lemma PatchKeeps(c: Child, d: Desired)
    ensures var after := Patched(c, d);
            && after.conditions == c.conditions && after.terminating == c.terminating && after.held == c.held
            && (after.generation == c.generation <==> SpecEqual(c.spec, d.spec))
  {
  }

  /** Ensuring children that are all in place writes nothing, whatever fails. */
  lemma {:induction false} EnsureAllInPlace(h: HubState, id: SetId, ds: seq<Desired>, faults: set<Call>)
    requires forall i :: 0 <= i < |ds| ==> InPlace(h.store, id, ds[i])
    ensures EnsureAll(h, id, ds, faults).0 == h
    ensures forall i ::
            0 <= i < |ds| ==> EnsureAll(h, id, ds, faults).1[i] == InPlaceOutcome(h.store, id, ds[i], faults)
  {
    hide Owner, OwnedBySet, SpecEqual;
    var n := |ds| - 1;
    if n >= 0 {
      EnsureAllInPlace(h, id, ds[..n], faults);
      OwnedByOwner(id, h.store[ds[n].key].labels);
      assert forall i :: 0 <= i < n ==> ds[..n][i] == ds[i];
    }
  }

  ghost function InPlaceOutcome(store: Store, id: SetId, d: Desired, faults: set<Call>): Outcome
    requires InPlace(store, id, d)
  {
    if GetChild(d.key) in faults then Outcome.Failed else Done(store[d.key])
  }

  // ---------------------------------------------------------------- non-interference

  /** Only children of `id` differ between the two hubs, and no write concerned a child that was someone else's. */
  ghost predicate OnlyOwn(id: SetId, before: HubState, after: HubState) {
    && (forall k | k in before.store && Owner(before.store[k].labels) != Some(id) ::
        Get(after.store, k) == Some(before.store[k]))
    && (forall k | k in after.store && Owner(after.store[k].labels) != Some(id) ::
        Get(before.store, k) == Some(after.store[k]))
    && before.writes <= after.writes
    && (forall w | w in after.writes - before.writes && w.key in before.store ::
        Owner(before.store[w.key].labels) == Some(id))
  }

  /** All children of a set, and those of them that nobody has deleted. */
  ghost function OwnedOf(store: Store, id: SetId): set<Key> {
    set k | k in store && Owner(store[k].labels) == Some(id)
  }

  ghost function LiveOf(store: Store, id: SetId): set<Key> {
    set k | k in store && Owner(store[k].labels) == Some(id) && !store[k].terminating
  }

  /** A terminating object exists only because something holds it. */
  ghost predicate StoreOk(store: Store) {
    forall k | k in store && store[k].terminating :: store[k].held
  }

  lemma OnlyOwnReflexive(id: SetId, h: HubState)
    ensures OnlyOwn(id, h, h)
  {
  }

  lemma OnlyOwnTransitive(id: SetId, a: HubState, b: HubState, c: HubState)
    requires OnlyOwn(id, a, b) && OnlyOwn(id, b, c)
    ensures OnlyOwn(id, a, c)
  {
    forall w | w in c.writes - a.writes && w.key in a.store ensures Owner(a.store[w.key].labels) == Some(id) {
      assert Owner(a.store[w.key].labels) != Some(id) ==> Get(b.store, w.key) == Get(a.store, w.key);
    }
  }

  ghost predicate Replaces(store: Store, d: Desired, c: Child) {
    c.labels == d.labels
        && (c.terminating ==> d.key in store && store[d.key].terminating && store[d.key].held == c.held)
  }

  /** One ensure leaves a hub that differs only where the set's own child now is, or was. */
  lemma EnsureEffect(h: HubState, id: SetId, d: Desired, faults: set<Call>)
    requires Owner(d.labels) == Some(id)
    ensures var after := Ensure(h, id, d, faults).0;
            after == h || (
              && (d.key in h.store ==> Owner(h.store[d.key].labels) == Some(id))
              && (after.store == h.store || (exists c :: after.store == h.store[d.key := c] && Replaces(h.store, d, c)))
              && after.writes - h.writes <= {Create(d.key), Patch(d.key)} && h.writes <= after.writes)
  {
    hide Owner, OwnedBySet, Stored, SpecEqual;
    if d.key in h.store {
      OwnedByOwner(id, h.store[d.key].labels);
    }
    var after := Ensure(h, id, d, faults).0;
    if after.store != h.store {
      var c := after.store[d.key];
      assert after.store == h.store[d.key := c] && Replaces(h.store, d, c);
    }
  }

  lemma EnsureOnlyOwn(h: HubState, id: SetId, d: Desired, faults: set<Call>)
    requires Owner(d.labels) == Some(id) && StoreOk(h.store)
    ensures OnlyOwn(id, h, Ensure(h, id, d, faults).0) && StoreOk(Ensure(h, id, d, faults).0.store)
  {
    EnsureEffect(h, id, d, faults);
  }

  lemma {:induction false} EnsureAllOnlyOwn(h: HubState, id: SetId, ds: seq<Desired>, faults: set<Call>)
    requires StoreOk(h.store) && forall d | d in ds :: Owner(d.labels) == Some(id)
    ensures OnlyOwn(id, h, EnsureAll(h, id, ds, faults).0) && StoreOk(EnsureAll(h, id, ds, faults).0.store)
  {
    var n := |ds| - 1;
    if n >= 0 {
      EnsureAllOnlyOwn(h, id, ds[..n], faults);
      var before := EnsureAll(h, id, ds[..n], faults).0;
      EnsureOnlyOwn(before, id, ds[n], faults);
      OnlyOwnTransitive(id, h, before, EnsureAll(h, id, ds, faults).0);
    }
  }

  lemma OwnedKeys(store: Store, id: SetId, kind: Kind)
    ensures forall k ::
            k in Owned(store, id, kind) <==> k in store && k.kind == kind && Owner(store[k].labels) == Some(id)
  {
    forall k | k in store ensures OwnedBySet(id, store[k].labels) <==> Owner(store[k].labels) == Some(id) {
      OwnedByOwner(id, store[k].labels);
    }
  }

  lemma DeleteAllOnlyOwn(h: HubState, id: SetId, keys: set<Key>, faults: set<Call>)
    requires StoreOk(h.store) && forall k | k in keys :: k in h.store && Owner(h.store[k].labels) == Some(id)
    ensures OnlyOwn(id, h, DeleteAll(h, keys, faults)) && StoreOk(DeleteAll(h, keys, faults).store)
  {
  }
}
