/** Generated child names (metadata.go, rbac.go, controller_access.go) and the string order behind sets.List. */
module Names {

  const MAX_NAME: nat := 253
  const DIGEST: nat := 10

  predicate IsHexChar(c: char) {
    '0' <= c <= '9' || 'a' <= c <= 'f'
  }

  predicate IsDigest(s: string) {
    |s| == DIGEST && forall i :: 0 <= i < |s| ==> IsHexChar(s[i])
  }

  ghost predicate IsHasher(f: string -> string) {
    forall s :: IsDigest(f(s))
  }

  type Hasher = f: string -> string | IsHasher(f) witness (s: string) => "0000000000"

  /** The truncated SHA-256: an arbitrary function about which only the digest shape is known. */
  const STABLE_HASH: Hasher

  lemma StableHashIsDigest(s: string)
    ensures IsDigest(STABLE_HASH(s))
  {
    assert IsHasher(STABLE_HASH);
  }

  /** No two different members of `inputs` share a digest. */
  ghost predicate HashSeparates(inputs: set<string>) {
    forall a, b | a in inputs && b in inputs && STABLE_HASH(a) == STABLE_HASH(b) :: a == b
  }

  function Join(parts: seq<string>, separator: string): string {
    if |parts| == 0 then ""
    else if |parts| == 1 then parts[0]
    else parts[0] + separator + Join(parts[1..], separator)
  }

  function TrimDash(s: string): string {
    if |s| > 0 && s[|s| - 1] == '-' then s[..|s| - 1] else s
  }

  function StableChildName(parts: seq<string>): (name: string)
    ensures |name| <= MAX_NAME
  {
    StableHashIsDigest(Join(parts, "-"));
    Shorten(Join(parts, "-"))
  }

  function Shorten(full: string): (name: string)
    ensures |name| <= MAX_NAME
  {
    StableHashIsDigest(full);
    if |full| <= MAX_NAME then TrimDash(full)
    else TrimDash(full[..MAX_NAME - DIGEST - 1]) + "-" + STABLE_HASH(full)
  }

  function AccessAccountName(setName: string): string {
    StableChildName([setName, "controller-access"])
  }

  function AccessWorkName(setName: string): string {
    StableChildName([setName, "access", "rbac"])
  }

  function ClusterWorkName(setName: string): string {
    StableChildName([setName, "rbac", "cluster"])
  }

  function NamespaceWorkName(setName: string, namespace: string): string {
    StableChildName([setName, "rbac", "ns", STABLE_HASH(namespace)])
  }

  function AccessWorkFull(setName: string): string { setName + "-access-rbac" }

  function ClusterWorkFull(setName: string): string { setName + "-rbac-cluster" }

  function NamespaceWorkFull(setName: string, namespace: string): string {
    setName + "-rbac-ns-" + STABLE_HASH(namespace)
  }

  lemma FullNames(setName: string, namespace: string)
    ensures AccessWorkName(setName) == Shorten(AccessWorkFull(setName))
    ensures ClusterWorkName(setName) == Shorten(ClusterWorkFull(setName))
    ensures NamespaceWorkName(setName, namespace) == Shorten(NamespaceWorkFull(setName, namespace))
  {
    var h := STABLE_HASH(namespace);
    assert Join([setName, "access", "rbac"], "-") == AccessWorkFull(setName) by {
      assert [setName, "access", "rbac"][1..] == ["access", "rbac"];
      assert Join(["access", "rbac"], "-") == "access-rbac";
    }
    assert Join([setName, "rbac", "cluster"], "-") == ClusterWorkFull(setName) by {
      assert [setName, "rbac", "cluster"][1..] == ["rbac", "cluster"];
      assert Join(["rbac", "cluster"], "-") == "rbac-cluster";
    }
    assert Join([setName, "rbac", "ns", h], "-") == NamespaceWorkFull(setName, namespace) by {
      assert [setName, "rbac", "ns", h][1..] == ["rbac", "ns", h];
      assert ["rbac", "ns", h][1..] == ["ns", h];
      assert Join(["ns", h], "-") == "ns-" + h;
      assert Join(["rbac", "ns", h], "-") == "rbac-" + ("ns-" + h);
    }
  }

  /** Everything that is hashed when the works of a set over `namespaces` are named. */
  ghost function HashedNames(setName: string, namespaces: set<string>): set<string> {
    namespaces + {AccessWorkFull(setName), ClusterWorkFull(setName)}
    + (set n | n in namespaces :: NamespaceWorkFull(setName, n))
  }

  /** A shortened name that was cut ends in the digest of the full one. */
  lemma ShortenedTail(full: string)
    requires |full| > MAX_NAME
    ensures |Shorten(full)| > DIGEST
    ensures Shorten(full)[|Shorten(full)| - DIGEST..] == STABLE_HASH(full)
  {
    StableHashIsDigest(full);
  }

  /** Two full names with different digests, or a cut one against one whose last ten characters are not all hex,
      differ. */
  lemma ShortenSeparates(a: string, b: string)
    requires a != b && STABLE_HASH(a) != STABLE_HASH(b)
    requires |a| > 0 && |b| > 0 && a[|a| - 1] != '-' && b[|b| - 1] != '-'
    requires |a| <= MAX_NAME < |b| ==> |a| >= DIGEST && !IsDigest(a[|a| - DIGEST..])
    requires |b| <= MAX_NAME < |a| ==> |b| >= DIGEST && !IsDigest(b[|b| - DIGEST..])
    ensures Shorten(a) != Shorten(b)
  {
    StableHashIsDigest(a);
    StableHashIsDigest(b);
    if |a| > MAX_NAME { ShortenedTail(a); }
    if |b| > MAX_NAME { ShortenedTail(b); }
  }

  lemma AccessTail(setName: string)
    ensures var a := AccessWorkFull(setName); |a| > DIGEST && a[|a| - 1] != '-' && !IsDigest(a[|a| - DIGEST..])
  {
    var a := AccessWorkFull(setName);
    assert a[|a| - DIGEST..][6] == 'r';
  }

  lemma ClusterTail(setName: string)
    ensures var c := ClusterWorkFull(setName); |c| > DIGEST && c[|c| - 1] != '-' && !IsDigest(c[|c| - DIGEST..])
  {
    var c := ClusterWorkFull(setName);
    assert c[|c| - DIGEST..][9] == 'r';
  }

  lemma NamespaceTail(setName: string, namespace: string)
    ensures var f := NamespaceWorkFull(setName, namespace);
            |f| == |setName| + 19 && f[|f| - 1] != '-' && f[|f| - DIGEST..] == STABLE_HASH(namespace)
  {
    StableHashIsDigest(namespace);
    var f := NamespaceWorkFull(setName, namespace);
    assert f[|f| - 1] == STABLE_HASH(namespace)[9];
  }

  lemma AccessNotCluster(setName: string)
    requires HashSeparates({AccessWorkFull(setName), ClusterWorkFull(setName)})
    ensures AccessWorkName(setName) != ClusterWorkName(setName)
  {
    FullNames(setName, "");
    AccessTail(setName);
    ClusterTail(setName);
    ShortenSeparates(AccessWorkFull(setName), ClusterWorkFull(setName));
  }

  lemma NamespaceNotOther(setName: string, namespace: string)
    requires HashSeparates({AccessWorkFull(setName), ClusterWorkFull(setName), NamespaceWorkFull(setName, namespace)})
    ensures NamespaceWorkName(setName, namespace) != AccessWorkName(setName)
    ensures NamespaceWorkName(setName, namespace) != ClusterWorkName(setName)
  {
    FullNames(setName, namespace);
    AccessTail(setName);
    ClusterTail(setName);
    NamespaceTail(setName, namespace);
    ShortenSeparates(NamespaceWorkFull(setName, namespace), AccessWorkFull(setName));
    ShortenSeparates(NamespaceWorkFull(setName, namespace), ClusterWorkFull(setName));
  }

  lemma NamespacesSeparate(setName: string, m: string, n: string)
    requires m != n && STABLE_HASH(m) != STABLE_HASH(n)
    requires HashSeparates({NamespaceWorkFull(setName, m), NamespaceWorkFull(setName, n)})
    ensures NamespaceWorkName(setName, m) != NamespaceWorkName(setName, n)
  {
    FullNames(setName, m);
    FullNames(setName, n);
    NamespaceTail(setName, m);
    NamespaceTail(setName, n);
    ShortenSeparates(NamespaceWorkFull(setName, m), NamespaceWorkFull(setName, n));
  }

  /** The works of one set never share a name, whatever mixture of them had to be shortened. */
  lemma WorkNamesDistinct(setName: string, namespaces: set<string>)
    requires HashSeparates(HashedNames(setName, namespaces))
    ensures AccessWorkName(setName) != ClusterWorkName(setName)
    ensures forall n | n in namespaces ::
              NamespaceWorkName(setName, n) != AccessWorkName(setName)
                  && NamespaceWorkName(setName, n) != ClusterWorkName(setName)
    ensures forall m, n | m in namespaces && n in namespaces && m != n ::
              NamespaceWorkName(setName, m) != NamespaceWorkName(setName, n)
  {
    hide AccessWorkName, ClusterWorkName, NamespaceWorkName;
    AccessNotCluster(setName);
    forall n | n in namespaces
      ensures NamespaceWorkName(setName, n) != AccessWorkName(setName)
              && NamespaceWorkName(setName, n) != ClusterWorkName(setName)
    {
      NamespaceNotOther(setName, n);
    }
    forall m, n | m in namespaces && n in namespaces && m != n
      ensures NamespaceWorkName(setName, m) != NamespaceWorkName(setName, n)
    {
      assert STABLE_HASH(m) != STABLE_HASH(n);
      NamespacesSeparate(setName, m, n);
    }
  }

  // ---------------------------------------------------------------- order

  predicate Before(a: string, b: string) {
    |b| > 0 && (|a| == 0 || a[0] < b[0] || (a[0] == b[0] && Before(a[1..], b[1..])))
  }

  lemma {:induction false} BeforeTotal(a: string, b: string)
    ensures a == b || Before(a, b) || Before(b, a)
  {
    if |a| > 0 && |b| > 0 && a[0] == b[0] {
      BeforeTotal(a[1..], b[1..]);
      assert a == [a[0]] + a[1..] && b == [b[0]] + b[1..];
    }
  }

  lemma {:induction false} BeforeTransitive(a: string, b: string, c: string)
    requires Before(a, b) && Before(b, c)
    ensures Before(a, c)
  {
    if |a| > 0 && a[0] == b[0] && b[0] == c[0] {
      BeforeTransitive(a[1..], b[1..], c[1..]);
    }
  }

  lemma {:induction false} BeforeIrreflexive(a: string)
    ensures !Before(a, a)
  {
    if |a| > 0 { BeforeIrreflexive(a[1..]); }
  }

  predicate Ascending(s: seq<string>) {
    forall i, j :: 0 <= i < j < |s| ==> Before(s[i], s[j])
  }

  predicate IsLeast(m: string, s: set<string>) {
    m in s && forall x | x in s :: x == m || Before(m, x)
  }

  lemma {:induction false} LeastExists(s: set<string>)
    requires s != {}
    ensures exists m :: IsLeast(m, s)
    decreases |s|
  {
    var x :| x in s;
    if s == {x} {
      assert IsLeast(x, s);
    } else {
      var rest := s - {x};
      LeastExists(rest);
      var m :| IsLeast(m, rest);
      BeforeTotal(x, m);
      if Before(x, m) {
        forall y | y in rest && y != m ensures Before(x, y) { BeforeTransitive(x, m, y); }
        assert IsLeast(x, s);
      } else {
        assert IsLeast(m, s);
      }
    }
  }

  lemma LeastUnique(s: set<string>)
    ensures forall a, b | IsLeast(a, s) && IsLeast(b, s) :: a == b
  {
    forall a, b | IsLeast(a, s) && IsLeast(b, s) ensures a == b {
      if a != b {
        BeforeTransitive(a, b, a);
        BeforeIrreflexive(a);
      }
    }
  }

  /** sets.List: the members in strictly ascending order. */
  function SortedList(s: set<string>): (r: seq<string>)
    ensures Ascending(r)
    ensures forall x :: x in r <==> x in s
    decreases |s|
  {
    if s == {} then []
    else
      LeastExists(s);
      LeastUnique(s);
      var m :| IsLeast(m, s);
      var rest := SortedList(s - {m});
      assert forall j | 0 <= j < |rest| :: rest[j] in rest && Before(m, rest[j]);
      [m] + rest
  }

  lemma AscendingDistinct(s: seq<string>)
    requires Ascending(s)
    ensures forall i, j :: 0 <= i < j < |s| ==> s[i] != s[j]
  {
    forall i, j | 0 <= i < j < |s| ensures s[i] != s[j] {
      BeforeIrreflexive(s[i]);
    }
  }

  /** The sorted list is the only ascending sequence with these members. */
  lemma {:induction false} AscendingUnique(a: seq<string>, b: seq<string>)
    requires Ascending(a) && Ascending(b)
    requires forall x :: x in a <==> x in b
    ensures a == b
  {
    AscendingDistinct(a);
    AscendingDistinct(b);
    assert forall x :: x in a ==> x in b;
    assert |a| > 0 ==> a[0] in b;
    assert |b| > 0 ==> b[0] in a;
    if |a| > 0 && |b| > 0 {
      if a[0] != b[0] {
        assert Before(a[0], b[0]) && Before(b[0], a[0]);
        BeforeTransitive(a[0], b[0], a[0]);
        BeforeIrreflexive(a[0]);
      }
      forall x ensures x in a[1..] <==> x in b[1..] {
        assert x in a <==> x == a[0] || x in a[1..];
        assert x in b <==> x == b[0] || x in b[1..];
      }
      AscendingUnique(a[1..], b[1..]);
    }
  }

  // ---------------------------------------------------------------- joining with slashes

  lemma Extend(a: string, b: string, name: string)
    requires a != b
    ensures a + "/" + name != b + "/" + name
  {
    if |a| == |b| {
      var i :| 0 <= i < |a| && a[i] != b[i];
      assert (a + "/" + name)[i] != (b + "/" + name)[i];
    }
  }

  lemma FirstSlash(m: string, a: string)
    requires '/' !in m
    ensures (m + "/" + a)[|m|] == '/' && forall i :: 0 <= i < |m| ==> (m + "/" + a)[i] != '/'
    ensures (m + "/" + a)[..|m|] == m && (m + "/" + a)[|m| + 1..] == a
  {
  }

  lemma SlashSplit(m: string, a: string, n: string, b: string)
    requires '/' !in m && '/' !in n && m + "/" + a == n + "/" + b
    ensures m == n && a == b
  {
    FirstSlash(m, a);
    FirstSlash(n, b);
  }

  // ---------------------------------------------------------------- sizes

  lemma SubsetSize<T>(a: set<T>, b: set<T>)
    requires a <= b
    ensures |a| <= |b| && (|a| == |b| <==> a == b)
  {
    assert b == a + (b - a) && |b| == |a| + |b - a|;
  }
}
