/** The table of remote namespace caches, shared by concurrent calls (namespace_resolver.go). */
module NamespaceCache {
  import opened Model
  import opened Names

  /** Who asks for a cache, and which cluster profile leads to the cluster. */
  datatype Request = Request(owner: SetId, cluster: string, profileNamespace: string, profileName: string)

  datatype Cache = Cache(id: nat, owner: SetId, cluster: string)

  /** `stopped` are the caches that were cancelled; `next` counts the caches ever built. */
  datatype Table = Table(caches: map<string, Cache>, stopped: set<nat>, next: nat)

  function KeyParts(r: Request): seq<string> {
    [r.owner.uid, r.owner.namespace, r.owner.name, r.cluster, r.profileNamespace, r.profileName,
     AccessAccountName(r.owner.name)]
  }

  function CacheKey(r: Request): string {
    Join(KeyParts(r), "/")
  }

  // ---------------------------------------------------------------- what each lock section does

  /** Other entries of the same set and cluster. */
  predicate Sibling(t: Table, k: string, key: string, owner: SetId, cluster: string) {
    k in t.caches && k != key && t.caches[k].owner == owner && t.caches[k].cluster == cluster
  }

  function Drop(t: Table, keys: set<string>): Table {
    Table(map k | k in t.caches && k !in keys ::
        t.caches[k], t.stopped + (set k | k in keys && k in t.caches :: t.caches[k].id), t.next)
  }

  /** Publishing a cache: an entry that came in meanwhile wins; otherwise the cache replaces its siblings. */
  function Insert(t: Table, key: string, c: Cache): Table {
    if key in t.caches then t.(stopped := t.stopped + {c.id})
    else Drop(t.(caches := t.caches[key := c]), set k | k in t.caches && Sibling(t, k, key, c.owner, c.cluster))
  }

  predicate Unwanted(c: Cache, owner: SetId, keep: set<string>) {
    c.owner == owner && c.cluster !in keep
  }

  function StopFor(t: Table, owner: SetId, keep: set<string>): Table {
    Drop(t, set k | k in t.caches && Unwanted(t.caches[k], owner, keep))
  }

  class CacheTable {
    var caches: map<string, Cache>
    var stopped: set<nat>
    var next: nat

    constructor ()
      ensures View() == Table(map[], {}, 0)
    {
      caches, stopped, next := map[], {}, 0;
    }

    function View(): Table
      reads this
    {
      Table(caches, stopped, next)
    }

    method Lookup(key: string) returns (c: Option<Cache>)
      ensures c == Get(caches, key)
    {
      c := Get(caches, key);
    }

    method Build(r: Request) returns (c: Cache)
      modifies this`next
      ensures c == Cache(old(next), r.owner, r.cluster) && next == old(next) + 1
    {
      c := Cache(next, r.owner, r.cluster);
      next := next + 1;
    }

    method StopAndDelete(k: string)
      requires k in caches
      modifies this`caches, this`stopped
      ensures View() == Drop(old(View()), {k})
    {
      stopped := stopped + {caches[k].id};
      caches := caches - {k};
    }

    /** Walks the table and stops what is doomed, in whatever order the entries come. */
    method StopEach(doomed: (string, Cache) -> bool)
      modifies this`caches, this`stopped
      ensures View() == Drop(old(View()), DoomedKeys(old(View()), old(caches.Keys), doomed))
    {
      ghost var before := View();
      var rest := caches.Keys;
      DropNothing(before);
      while rest != {}
        invariant rest <= before.caches.Keys
        invariant View() == Drop(before, DoomedKeys(before, before.caches.Keys - rest, doomed))
        decreases |rest|
      {
        var k :| k in rest;
        ghost var done := DoomedKeys(before, before.caches.Keys - rest, doomed);
        assert k in caches && caches[k] == before.caches[k];
        rest := rest - {k};
        DropMore(before, done, {k});
        assert DoomedKeys(before, before.caches.Keys - rest, doomed) == if doomed(k, before.caches[k]) then done + {k}
            else done;
        if doomed(k, caches[k]) {
          StopAndDelete(k);
        }
      }
      assert before.caches.Keys - rest == before.caches.Keys;
    }

    method Publish(key: string, c: Cache) returns (r: Cache)
      modifies this`caches, this`stopped
      ensures View() == Insert(old(View()), key, c)
      ensures r == if key in old(caches) then old(caches)[key] else c
    {
      if key in caches {
        stopped := stopped + {c.id};
        return caches[key];
      }
      caches := caches[key := c];
      SiblingsAsBefore(old(View()), key, c);
      StopEach((k: string, e: Cache) => k != key && e.owner == c.owner && e.cluster == c.cluster);
      return c;
    }

    /** A call that nobody interferes with: look, build outside the lock, publish. */
    method EnsureNamespaceCache(r: Request) returns (c: Cache)
      modifies this
      ensures var key := CacheKey(r);
              var built := Cache(old(next), r.owner, r.cluster);
              if key in old(caches) then View() == old(View()) && c == old(caches)[key]
              else View() == Insert(old(View()).(next := old(next) + 1), key, built) && c == built
    {
      var found := Lookup(CacheKey(r));
      if found.Some? {
        return found.value;
      }
      c := Build(r);
      c := Publish(CacheKey(r), c);
    }

    method StopNamespaceCaches(owner: SetId, keep: set<string>)
      modifies this`caches, this`stopped
      ensures View() == StopFor(old(View()), owner, keep)
    {
      ghost var unwanted := set k | k in caches && Unwanted(caches[k], owner, keep);
      var doomed := (k: string, e: Cache) => Unwanted(e, owner, keep);
      assert DoomedKeys(View(), caches.Keys, doomed) == unwanted;
      StopEach(doomed);
    }

    method ShutDown()
      modifies this`caches, this`stopped
      ensures View() == Drop(old(View()), old(caches.Keys))
    {
      var doomed := (k: string, e: Cache) => true;
      assert DoomedKeys(View(), caches.Keys, doomed) == caches.Keys;
      StopEach(doomed);
    }
  }

  function DoomedKeys(t: Table, keys: set<string>, doomed: (string, Cache) -> bool): set<string> {
    set k | k in keys && k in t.caches && doomed(k, t.caches[k])
  }

  lemma DropNothing(t: Table)
    ensures Drop(t, {}) == t
  {
  }

  lemma DropMore(t: Table, a: set<string>, b: set<string>)
    ensures Drop(Drop(t, a), b) == Drop(t, a + b)
  {
    assert Drop(Drop(t, a), b).stopped == Drop(t, a + b).stopped by {
      forall i ensures i in Drop(Drop(t, a), b).stopped <==> i in Drop(t, a + b).stopped {
        if i in Drop(t, a + b).stopped && i !in t.stopped {
          var k :| k in a + b && k in t.caches && t.caches[k].id == i;
          assert k !in a ==> k in Drop(t, a).caches;
        }
      }
    }
  }

  lemma SiblingsAsBefore(t: Table, key: string, c: Cache)
    requires key !in t.caches
    ensures var with := t.(caches := t.caches[key := c]);
            var doomed := (k: string, e: Cache) => k != key && e.owner == c.owner && e.cluster == c.cluster;
            Drop(with, DoomedKeys(with, with.caches.Keys, doomed)) == Insert(t, key, c)
  {
    var with := t.(caches := t.caches[key := c]);
    var doomed := (k: string, e: Cache) => k != key && e.owner == c.owner && e.cluster == c.cluster;
    assert DoomedKeys(with, with.caches.Keys, doomed) == set k | k in t.caches
        && Sibling(t, k, key, c.owner, c.cluster);
  }

  // ---------------------------------------------------------------- concurrent calls

  /** A call between its lock sections: it found no entry, or it holds a cache it has built but not published. */
  datatype Stage = Missed(r: Request) | Holding(r: Request, cache: Cache)

  datatype State = State(table: Table, calls: map<nat, Stage>, down: bool)

  datatype Step =
    | Look(call: nat, r: Request)
    | GiveUp(call: nat)
    | BuildCache(call: nat)
    | PublishCache(call: nat)
    | StopCaches(owner: SetId, keep: set<string>)
    | Shutdown

  /** Uids and object names hold no slash. */
  predicate SlashFreeRequest(r: Request) {
    forall i :: 0 <= i < 6 ==> '/' !in KeyParts(r)[i]
  }

  predicate Enabled(s: State, step: Step) {
    !s.down
    && match step
       case Look(c, r) => c !in s.calls && SlashFreeRequest(r)
       case GiveUp(c) => c in s.calls && s.calls[c].Missed?
       case BuildCache(c) => c in s.calls && s.calls[c].Missed?
       case PublishCache(c) => c in s.calls && s.calls[c].Holding?
       case StopCaches(_, _) => true
       case Shutdown => s.calls == map[]
  }

  function Do(s: State, step: Step): State
    requires Enabled(s, step)
  {
    match step
    case Look(c, r) => if CacheKey(r) in s.table.caches then s else s.(calls := s.calls[c := Missed(r)])
    case GiveUp(c) => s.(calls := s.calls - {c})
    case BuildCache(c) =>
      var r := s.calls[c].r;
      s.(table := s.table.(next := s.table.next + 1),
         calls := s.calls[c := Holding(r, Cache(s.table.next, r.owner, r.cluster))])
    case PublishCache(c) => s.(table := Insert(s.table, CacheKey(s.calls[c].r), s.calls[c].cache),
                               calls := s.calls - {c})
    case StopCaches(owner, keep) => s.(table := StopFor(s.table, owner, keep))
    case Shutdown => s.(table := Drop(s.table, s.table.caches.Keys), down := true)
  }

  /** The cache a call returns in a step that ends it with success. */
  function Returned(s: State, step: Step): Option<Cache>
    requires Enabled(s, step)
  {
    match step
    case Look(_, r) => Get(s.table.caches, CacheKey(r))
    case PublishCache(c) =>
      Get(Insert(s.table, CacheKey(s.calls[c].r), s.calls[c].cache).caches, CacheKey(s.calls[c].r))
    case _ => None
  }

  // ---------------------------------------------------------------- what holds at every lock release

  ghost predicate OnePerCluster(t: Table) {
    forall a, b | a in t.caches && b in t.caches && t.caches[a].owner == t.caches[b].owner
        && t.caches[a].cluster == t.caches[b].cluster :: a == b
  }

  ghost predicate KeyFits(key: string, c: Cache) {
    exists r :: SlashFreeRequest(r) && CacheKey(r) == key && r.owner == c.owner && r.cluster == c.cluster
  }

  function InTable(t: Table): set<nat> {
    set k | k in t.caches :: t.caches[k].id
  }

  function Held(calls: map<nat, Stage>): set<nat> {
    set c | c in calls && calls[c].Holding? :: calls[c].cache.id
  }

  ghost predicate TableOk(t: Table) {
    && OnePerCluster(t)
    && (forall a, b | a in t.caches && b in t.caches && t.caches[a].id == t.caches[b].id :: a == b)
    && (forall k | k in t.caches :: KeyFits(k, t.caches[k]))
  }

  ghost predicate CallsOk(calls: map<nat, Stage>) {
    && (forall c | c in calls :: SlashFreeRequest(calls[c].r))
    && (forall c | c in calls && calls[c].Holding? ::
        calls[c].cache.owner == calls[c].r.owner && calls[c].cache.cluster == calls[c].r.cluster)
    && (forall c, d | c in calls && d in calls && calls[c].Holding? && calls[d].Holding?
        && calls[c].cache.id == calls[d].cache.id :: c == d)
  }

  /** Every cache ever built is in the table, stopped, or held by the call that built it, and only one of these. */
  ghost predicate Accounted(s: State) {
    && (forall i: nat :: i in InTable(s.table) + s.table.stopped + Held(s.calls) <==> i < s.table.next)
    && InTable(s.table) !! s.table.stopped !! Held(s.calls)
  }

  ghost predicate Consistent(s: State) {
    TableOk(s.table) && CallsOk(s.calls) && Accounted(s)
  }

  lemma {:induction false} JoinInjective(a: seq<string>, b: seq<string>)
    requires |a| == |b| > 0 && Join(a, "/") == Join(b, "/")
    requires forall i :: 0 <= i < |a| - 1 ==> '/' !in a[i] && '/' !in b[i]
    ensures a == b
  {
    if |a| > 1 {
      SlashSplit(a[0], Join(a[1..], "/"), b[0], Join(b[1..], "/"));
      JoinInjective(a[1..], b[1..]);
      assert a == [a[0]] + a[1..] && b == [b[0]] + b[1..];
    }
  }

  /** Two requests share a key only if they are for the same set, cluster and profile. */
  lemma KeySeparates(r: Request, q: Request)
    requires SlashFreeRequest(r) && SlashFreeRequest(q) && CacheKey(r) == CacheKey(q)
    ensures r == q
  {
    hide Join, AccessAccountName;
    var a, b := KeyParts(r), KeyParts(q);
    JoinInjective(a, b);
    assert a[0] == b[0] && a[1] == b[1] && a[2] == b[2] && a[3] == b[3] && a[4] == b[4] && a[5] == b[5];
  }

  lemma DropOk(t: Table, keys: set<string>)
    requires TableOk(t)
    ensures TableOk(Drop(t, keys))
    ensures InTable(Drop(t, keys)) + Drop(t, keys).stopped == InTable(t) + t.stopped
    ensures InTable(t) !! t.stopped ==> InTable(Drop(t, keys)) !! Drop(t, keys).stopped
  {
    hide KeyFits;
    var d := Drop(t, keys);
    forall i ensures i in InTable(d) + d.stopped <==> i in InTable(t) + t.stopped {
      if i in InTable(t) {
        var k :| k in t.caches && t.caches[k].id == i;
        assert k !in keys ==> k in d.caches;
      }
    }
  }

  /** Without siblings an entry can be added. */
  lemma AddOk(t: Table, r: Request, c: Cache)
    requires TableOk(t) && SlashFreeRequest(r) && c.owner == r.owner && c.cluster == r.cluster && c.id !in InTable(t)
    requires CacheKey(r) !in t.caches && forall k :: !Sibling(t, k, CacheKey(r), c.owner, c.cluster)
    ensures var after := t.(caches := t.caches[CacheKey(r) := c]);
            TableOk(after) && InTable(after) == InTable(t) + {c.id}
  {
    hide CacheKey, SlashFreeRequest, KeyFits, InTable;
    var key := CacheKey(r);
    RequestFits(r, c);
    IdsWith(t, key, c);
    forall k | k in t.caches ensures t.caches[k].owner != c.owner || t.caches[k].cluster != c.cluster {
      assert !Sibling(t, k, key, c.owner, c.cluster);
    }
  }

  lemma IdsWith(t: Table, key: string, c: Cache)
    requires key !in t.caches
    ensures InTable(t.(caches := t.caches[key := c])) == InTable(t) + {c.id}
    ensures forall k | k in t.caches :: t.caches[k].id in InTable(t)
  {
    var after := t.(caches := t.caches[key := c]);
    forall i | i in InTable(t) ensures i in InTable(after) {
      var k :| k in t.caches && t.caches[k].id == i;
      assert k in after.caches;
    }
    assert key in after.caches;
  }

  lemma RequestFits(r: Request, c: Cache)
    requires SlashFreeRequest(r) && c.owner == r.owner && c.cluster == r.cluster
    ensures KeyFits(CacheKey(r), c)
  {
  }

  lemma InsertOk(t: Table, r: Request, c: Cache)
    requires TableOk(t) && SlashFreeRequest(r) && c.owner == r.owner && c.cluster == r.cluster
             && c.id !in InTable(t) + t.stopped
    ensures var after := Insert(t, CacheKey(r), c);
            TableOk(after) && InTable(after) + after.stopped == InTable(t) + t.stopped + {c.id}
            && (InTable(t) !! t.stopped ==> InTable(after) !! after.stopped)
  {
    hide CacheKey, SlashFreeRequest, TableOk, InTable;
    var key := CacheKey(r);
    if key !in t.caches {
      var keys := set k | k in t.caches && Sibling(t, k, key, c.owner, c.cluster);
      var rest := Drop(t, keys);
      DropOk(t, keys);
      assert forall k :: !Sibling(rest, k, key, c.owner, c.cluster);
      AddOk(rest, r, c);
      assert Insert(t, key, c) == rest.(caches := rest.caches[key := c]);
    } else {
      assert Insert(t, key, c) == t.(stopped := t.stopped + {c.id});
      SameTable(t, t.stopped + {c.id});
    }
  }

  lemma SameTable(t: Table, stopped: set<nat>)
    requires TableOk(t)
    ensures TableOk(t.(stopped := stopped)) && InTable(t.(stopped := stopped)) == InTable(t)
  {
  }

  lemma HeldWithout(calls: map<nat, Stage>, c: nat)
    requires CallsOk(calls) && c in calls
    ensures CallsOk(calls - {c})
    ensures Held(calls - {c}) == if calls[c].Holding? then Held(calls) - {calls[c].cache.id} else Held(calls)
    ensures calls[c].Holding? ==> calls[c].cache.id in Held(calls)
  {
    hide SlashFreeRequest;
    forall i | i in Held(calls) && (calls[c].Holding? ==> i != calls[c].cache.id) ensures i in Held(calls - {c}) {
      var d :| d in calls && calls[d].Holding? && calls[d].cache.id == i;
      assert d in calls - {c};
    }
  }

  lemma HeldWith(calls: map<nat, Stage>, c: nat, r: Request, cache: Cache)
    requires CallsOk(calls) && c in calls && calls[c] == Missed(r) && cache.id !in Held(calls)
    requires cache.owner == r.owner && cache.cluster == r.cluster
    ensures CallsOk(calls[c := Holding(r, cache)]) && Held(calls[c := Holding(r, cache)]) == Held(calls) + {cache.id}
  {
    hide SlashFreeRequest;
    var after := calls[c := Holding(r, cache)];
    assert c in after;
    forall i | i in Held(calls) ensures i in Held(after) {
      var d :| d in calls && calls[d].Holding? && calls[d].cache.id == i;
      assert d in after && after[d] == calls[d];
    }
  }

  lemma StepConsistent(s: State, step: Step)
    requires Consistent(s) && Enabled(s, step)
    ensures Consistent(Do(s, step))
  {
    hide TableOk, SlashFreeRequest, CacheKey, Drop, Insert, InTable, Held, CallsOk;
    match step
    case Look(c, r) => LookConsistent(s, c, r);
    case GiveUp(c) => HeldWithout(s.calls, c);
    case BuildCache(c) => BuildConsistent(s, c);
    case PublishCache(c) => PublishConsistent(s, c);
    case StopCaches(owner, keep) => DropRest(s, set k | k in s.table.caches
        && Unwanted(s.table.caches[k], owner, keep));
    case Shutdown => DropRest(s, s.table.caches.Keys);
  }

  lemma DropRest(s: State, keys: set<string>)
    requires Accounted(s) && TableOk(s.table)
    ensures Accounted(s.(table := Drop(s.table, keys))) && TableOk(Drop(s.table, keys))
  {
    hide InTable, Held, TableOk;
    DropOk(s.table, keys);
    var d := Drop(s.table, keys);
    assert d.next == s.table.next;
    assert InTable(d) + d.stopped == InTable(s.table) + s.table.stopped;
  }

  lemma LookConsistent(s: State, c: nat, r: Request)
    requires Consistent(s) && Enabled(s, Look(c, r))
    ensures Consistent(Do(s, Look(c, r)))
  {
    hide TableOk, SlashFreeRequest, CacheKey;
    var after := s.calls[c := Missed(r)];
    assert Held(after) == Held(s.calls) by {
      forall i | i in Held(s.calls) ensures i in Held(after) {
        var d :| d in s.calls && s.calls[d].Holding? && s.calls[d].cache.id == i;
        assert d in after && after[d] == s.calls[d];
      }
    }
  }

  lemma BuildConsistent(s: State, c: nat)
    requires Consistent(s) && Enabled(s, BuildCache(c))
    ensures Consistent(Do(s, BuildCache(c)))
  {
    hide SlashFreeRequest, CacheKey, CallsOk, Held;
    var r, id := s.calls[c].r, s.table.next;
    var after := Do(s, BuildCache(c));
    assert id !in InTable(s.table) + s.table.stopped + Held(s.calls);
    HeldWith(s.calls, c, r, Cache(id, r.owner, r.cluster));
    assert InTable(after.table) == InTable(s.table);
  }

  lemma PublishConsistent(s: State, c: nat)
    requires Consistent(s) && Enabled(s, PublishCache(c))
    ensures Consistent(Do(s, PublishCache(c)))
  {
    hide TableOk, SlashFreeRequest, CacheKey, InTable, Held;
    HeldWithout(s.calls, c);
    var id := s.calls[c].cache.id;
    assert id in Held(s.calls) && id !in InTable(s.table) + s.table.stopped;
    InsertOk(s.table, s.calls[c].r, s.calls[c].cache);
    var after := Do(s, PublishCache(c));
    assert TableOk(after.table) && CallsOk(after.calls) && after.table.next == s.table.next;
    assert InTable(after.table) !! after.table.stopped !! Held(after.calls);
    assert InTable(after.table) + after.table.stopped + Held(after.calls)
        == InTable(s.table) + s.table.stopped + Held(s.calls);
  }

  ghost predicate EnabledRun(s: State, steps: seq<Step>)
    decreases |steps|, 0
  {
    |steps| == 0 || (EnabledRun(s, steps[..|steps| - 1])
        && Enabled(AfterSteps(s, steps[..|steps| - 1]), steps[|steps| - 1]))
  }

  ghost function AfterSteps(s: State, steps: seq<Step>): State
    requires EnabledRun(s, steps)
    decreases |steps|, 1
  {
    if |steps| == 0 then s else Do(AfterSteps(s, steps[..|steps| - 1]), steps[|steps| - 1])
  }

  /** Under every interleaving: one entry per set and cluster, no stopped cache in the table, no cache lost. */
  lemma {:induction false} AlwaysConsistent(steps: seq<Step>)
    requires EnabledRun(State(Table(map[], {}, 0), map[], false), steps)
    ensures Consistent(AfterSteps(State(Table(map[], {}, 0), map[], false), steps))
  {
    hide Enabled, Do;
    var start := State(Table(map[], {}, 0), map[], false);
    var n := |steps| - 1;
    if n >= 0 {
      AlwaysConsistent(steps[..n]);
      StepConsistent(AfterSteps(start, steps[..n]), steps[n]);
    }
  }

  /** What a call returns is, at that moment, the entry under its key, running, and of the set and cluster it asked
      for. */
  lemma ReturnedIsRight(s: State, step: Step)
    requires Consistent(s) && Enabled(s, step) && Returned(s, step).Some?
    ensures var r := if step.Look? then step.r else s.calls[step.call].r;
            var c := Returned(s, step).value;
            var t := Do(s, step).table;
            CacheKey(r) in t.caches && t.caches[CacheKey(r)] == c && c.id !in t.stopped && c.owner == r.owner
                && c.cluster == r.cluster
  {
    hide SlashFreeRequest, CacheKey;
    StepConsistent(s, step);
    var r := if step.Look? then step.r else s.calls[step.call].r;
    var t := Do(s, step).table;
    assert KeyFits(CacheKey(r), t.caches[CacheKey(r)]);
    var q :| SlashFreeRequest(q) && CacheKey(q) == CacheKey(r) && q.owner == t.caches[CacheKey(r)].owner
        && q.cluster == t.caches[CacheKey(r)].cluster;
    KeySeparates(r, q);
    assert t.caches[CacheKey(r)].id in InTable(t);
  }

  /** Stopping a set's caches leaves exactly the entries of other sets and of its kept clusters, and stops exactly
      the others. */
  lemma StopLeavesExactly(s: State, owner: SetId, keep: set<string>, k: string)
    requires Consistent(s)
    ensures var t := StopFor(s.table, owner, keep);
            && (k in t.caches
                <==> k in s.table.caches && (s.table.caches[k].owner != owner || s.table.caches[k].cluster in keep))
            && (k in t.caches ==> t.caches[k] == s.table.caches[k])
            && (k in s.table.caches ==> (k in t.caches <==> s.table.caches[k].id !in t.stopped))
  {
    var t := StopFor(s.table, owner, keep);
    if k in s.table.caches {
      assert s.table.caches[k].id in InTable(s.table);
      if k in t.caches {
        assert s.table.caches[k].id !in s.table.stopped;
      }
    }
  }

  /** Publishing keeps an entry that came in meanwhile and stops just the late cache; otherwise it adds its own and
      takes away, and stops, exactly the others of its set and cluster. */
  lemma PublishLeavesExactly(s: State, call: nat, k: string)
    requires Consistent(s) && Enabled(s, PublishCache(call))
    ensures var t, key, c := Do(s, PublishCache(call)).table, CacheKey(s.calls[call].r), s.calls[call].cache;
            if key in s.table.caches then t.caches == s.table.caches && t.stopped == s.table.stopped + {c.id}
            else
              && (k in t.caches <==>
                    k == key || (k in s.table.caches
                                 && (s.table.caches[k].owner, s.table.caches[k].cluster) != (c.owner, c.cluster)))
              && Get(t.caches, key) == Some(c)
              && (k != key && k in t.caches ==> t.caches[k] == s.table.caches[k])
              && (k in s.table.caches ==> (k in t.caches <==> s.table.caches[k].id !in t.stopped))
              && c.id !in t.stopped
  {
    hide SlashFreeRequest, CacheKey, KeyFits;
    assert s.calls[call].cache.id in Held(s.calls);
    if k in s.table.caches { assert s.table.caches[k].id in InTable(s.table); }
  }

  /** After shutdown the table is empty and every cache that was ever built is stopped. */
  lemma ShutdownStopsAll(s: State)
    requires Consistent(s) && Enabled(s, Shutdown)
    ensures var t := Do(s, Shutdown).table; t.caches == map[] && forall i: nat :: i in t.stopped <==> i < t.next
  {
    var t := Do(s, Shutdown).table;
    assert Held(s.calls) == {} && t.caches == map[];
    assert t.stopped == s.table.stopped + InTable(s.table);
    forall i: nat ensures i in t.stopped <==> i < t.next {
      assert i in InTable(s.table) + s.table.stopped + Held(s.calls) <==> i < s.table.next;
    }
  }
}
