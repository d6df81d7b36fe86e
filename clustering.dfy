/** Proximity clustering of zone points: the connected components of the
    graph whose edges join points at most a threshold apart, found by a
    depth-first expansion from each not-yet-visited point in input order.
    Points are identified by their index; the distance is an input. */
module Clustering {
  import opened Common
  import opened Geo

  /** Every index of `s` names a point of `pts`. */
  predicate Indices(s: seq<nat>, n: nat)
  {
    forall k :: 0 <= k < |s| ==> s[k] < n
  }

  /** Each element after the first lies within `t` of some earlier element
      (measured from the earlier one). */
  predicate Linked(pts: seq<Coord>, dist: Distance, t: real, s: seq<nat>)
  {
    forall k :: 0 < k < |s| ==> LinkedAt(pts, dist, t, s, k)
  }

  /** The `k`-th element lies within `t` of some earlier element. */
  predicate LinkedAt(pts: seq<Coord>, dist: Distance, t: real, s: seq<nat>, k: nat)
  {
    k < |s| && exists m :: 0 <= m < k && s[m] < |pts| && s[k] < |pts| && dist(pts[s[m]], pts[s[k]]) <= t
  }

  /** Every point within `t` of a member of `s` (measured from the member) is in `v`. */
  predicate NeighboursIn(pts: seq<Coord>, dist: Distance, t: real, s: seq<nat>, v: set<nat>)
  {
    forall x, q :: x in s && x < |pts| && 0 <= q < |pts| && dist(pts[x], pts[q]) <= t ==> q in v
  }

  function Elems(s: seq<nat>): (r: set<nat>)
    ensures forall x :: x in r <==> x in s
  {
    set x | x in s
  }

  /** The points other than `p`, not yet visited and within `t` of `p`, in
      input order, among the indices `i` and above. */
  function Neighbors(pts: seq<Coord>, dist: Distance, t: real, p: nat, visited: set<nat>, i: nat): (r: seq<nat>)
    requires p < |pts|
    ensures forall q :: q in r <==> i <= q < |pts| && q != p && q !in visited && dist(pts[p], pts[q]) <= t
    ensures Indices(r, |pts|)
    decreases |pts| - i
  {
    if i >= |pts| then []
    else
      var rest := Neighbors(pts, dist, t, p, visited, i + 1);
      if i != p && i !in visited && dist(pts[p], pts[i]) <= t then [i] + rest else rest
  }

  /** Expands the cluster from `p`: returns the points it pushes onto the
      cluster, `p` first and then, depth first, every point not yet visited
      that is reachable from it, and the visited set with those added. */
  method ExpandCluster(pts: seq<Coord>, dist: Distance, t: real, p: nat, visited: set<nat>)
    returns (added: seq<nat>, visited': set<nat>)
    requires p < |pts| && p !in visited
    requires forall x :: x in visited ==> x < |pts|
    ensures |added| > 0 && added[0] == p
    ensures visited' == visited + Elems(added)
    ensures forall x :: x in visited' ==> x < |pts|
    ensures NoDup(added)
    ensures forall x :: x in added ==> x !in visited
    ensures Linked(pts, dist, t, added)
    ensures NeighboursIn(pts, dist, t, added, visited')
    decreases RangeSet(|pts|) - visited
  {
    added := [p];
    visited' := visited + {p};
    var neighbors := Neighbors(pts, dist, t, p, visited', 0);
    for j := 0 to |neighbors|
      invariant |added| > 0 && added[0] == p
      invariant visited' == visited + Elems(added)
      invariant forall x :: x in visited' ==> x < |pts|
      invariant NoDup(added)
      invariant forall x :: x in added ==> x !in visited
      invariant Linked(pts, dist, t, added)
      invariant NeighboursIn(pts, dist, t, added[1..], visited')
      invariant forall q :: 0 <= q < |pts| && dist(pts[p], pts[q]) <= t ==> q in visited' || q in neighbors[j..]
    {
      var q := neighbors[j];
      assert neighbors[j..] == [q] + neighbors[j + 1..];
      ghost var before := visited';
      if q !in visited' {
        assert RangeSet(|pts|) - visited' < RangeSet(|pts|) - visited by {
          assert p in RangeSet(|pts|) - visited && p !in RangeSet(|pts|) - visited';
        }
        var sub, v := ExpandCluster(pts, dist, t, q, visited');
        ExpandStep(pts, dist, t, visited, added, visited', sub, v);
        added, visited' := added + sub, v;
      }
      assert before <= visited' && q in visited';
    }
    assert added == [p] + added[1..];
  }

  /** Appending the points of one recursive expansion keeps ExpandCluster's loop facts. */
  lemma {:induction false} ExpandStep(pts: seq<Coord>, dist: Distance, t: real, visited: set<nat>,
                                      added: seq<nat>, v: set<nat>, sub: seq<nat>, v': set<nat>)
    requires |added| > 0
    requires v == visited + Elems(added)
    requires NoDup(added) && forall x :: x in added ==> x !in visited
    requires Linked(pts, dist, t, added)
    requires NeighboursIn(pts, dist, t, added[1..], v)
    requires |sub| > 0 && Hop(pts, dist, t, added[0], sub[0])
    requires v' == v + Elems(sub)
    requires NoDup(sub) && forall x :: x in sub ==> x !in v
    requires Linked(pts, dist, t, sub)
    requires NeighboursIn(pts, dist, t, sub, v')
    ensures v' == visited + Elems(added + sub)
    ensures NoDup(added + sub) && forall x :: x in added + sub ==> x !in visited
    ensures Linked(pts, dist, t, added + sub)
    ensures NeighboursIn(pts, dist, t, (added + sub)[1..], v')
  {
    assert Elems(added + sub) == Elems(added) + Elems(sub);
    NoDupAppend(added, sub);
    LinkedAppend(pts, dist, t, added, sub);
    assert (added + sub)[1..] == added[1..] + sub;
    NeighboursInAppend(pts, dist, t, added[1..], sub, v, v');
  }

  lemma {:induction false} NoDupAppend(a: seq<nat>, b: seq<nat>)
    requires NoDup(a) && NoDup(b) && forall x :: x in b ==> x !in a
    ensures NoDup(a + b)
  {
    var s := a + b;
    forall i, j | 0 <= i < j < |s|
      ensures s[i] != s[j]
    {
      if i < |a| <= j {
        assert s[i] in a && s[j] == b[j - |a|];
      } else if j < |a| {
        assert s[i] == a[i] && s[j] == a[j];
      } else {
        assert s[i] == b[i - |a|] && s[j] == b[j - |a|];
      }
    }
  }

  lemma {:induction false} LinkedAppend(pts: seq<Coord>, dist: Distance, t: real, a: seq<nat>, b: seq<nat>)
    requires Linked(pts, dist, t, a) && Linked(pts, dist, t, b)
    requires |a| > 0 && |b| > 0 && Hop(pts, dist, t, a[0], b[0])
    ensures Linked(pts, dist, t, a + b)
  {
    var s := a + b;
    forall k | 0 < k < |s|
      ensures LinkedAt(pts, dist, t, s, k)
    {
      if k < |a| {
        assert s[k] == a[k] && LinkedAt(pts, dist, t, a, k);
        var m :| 0 <= m < k && a[m] < |pts| && a[k] < |pts| && dist(pts[a[m]], pts[a[k]]) <= t;
        assert s[m] == a[m];
      } else if k == |a| {
        assert s[0] == a[0] && s[k] == b[0];
        assert s[0] < |pts| && s[k] < |pts| && dist(pts[s[0]], pts[s[k]]) <= t;
      } else {
        var k' := k - |a|;
        assert s[k] == b[k'] && LinkedAt(pts, dist, t, b, k');
        var m :| 0 <= m < k' && b[m] < |pts| && b[k'] < |pts| && dist(pts[b[m]], pts[b[k']]) <= t;
        assert s[m + |a|] == b[m];
        assert s[m + |a|] < |pts| && s[k] < |pts| && dist(pts[s[m + |a|]], pts[s[k]]) <= t;
      }
    }
    assert Linked(pts, dist, t, s);
  }

  lemma {:induction false} NeighboursInAppend(pts: seq<Coord>, dist: Distance, t: real, a: seq<nat>, b: seq<nat>, v: set<nat>, v': set<nat>)
    requires NeighboursIn(pts, dist, t, a, v) && NeighboursIn(pts, dist, t, b, v') && v <= v'
    ensures NeighboursIn(pts, dist, t, a + b, v')
  {
    forall x, q | x in a + b && x < |pts| && 0 <= q < |pts| && dist(pts[x], pts[q]) <= t
      ensures q in v'
    {
      if x in a {
        assert q in v;
      }
    }
  }

  /** The points held by the clusters. */
  function Covered(cls: seq<seq<nat>>): set<nat>
  {
    if cls == [] then {} else Covered(cls[..|cls| - 1]) + Elems(cls[|cls| - 1])
  }

  /** A point is covered exactly when some cluster holds it. */
  lemma {:induction false} CoveredMembers(cls: seq<seq<nat>>, x: nat)
    ensures x in Covered(cls) <==> exists a :: 0 <= a < |cls| && x in cls[a]
  {
    if cls != [] {
      var init := cls[..|cls| - 1];
      CoveredMembers(init, x);
      assert forall a :: 0 <= a < |init| ==> init[a] == cls[a];
    }
  }

  /** No point is in two clusters, and no cluster holds a point twice. */
  predicate Disjoint(cls: seq<seq<nat>>)
  {
    (forall a :: 0 <= a < |cls| ==> NoDup(cls[a])) &&
    (forall a, b, x :: 0 <= a < b < |cls| && x in cls[a] ==> x !in cls[b])
  }

  /** The proximity clusters of `pts` at threshold `t`, as lists of indices:
      they partition the points, each starts at its earliest point, they
      are listed by that point, each is linked, and every neighbour of a
      member is in that cluster or an earlier one. */
  method ClusterSpots(pts: seq<Coord>, dist: Distance, t: real) returns (clusters: seq<seq<nat>>)
    ensures |pts| == 0 ==> clusters == []
    ensures forall a :: 0 <= a < |clusters| ==> |clusters[a]| > 0
    ensures Disjoint(clusters)
    ensures forall x: nat :: x in Covered(clusters) <==> x < |pts|
    ensures forall a, k :: 0 <= a < |clusters| && 0 < k < |clusters[a]| ==> clusters[a][0] < clusters[a][k]
    ensures forall a, b :: 0 <= a < b < |clusters| ==> clusters[a][0] < clusters[b][0]
    ensures forall a :: 0 <= a < |clusters| ==> Linked(pts, dist, t, clusters[a])
    ensures forall a :: 0 <= a < |clusters| ==> NeighboursIn(pts, dist, t, clusters[a], Covered(clusters[..a + 1]))
  {
    clusters := [];
    if |pts| == 0 {
      return;
    }
    var visited: set<nat> := {};
    for i := 0 to |pts|
      invariant Partial(pts, dist, t, i, clusters, visited)
    {
      clusters, visited := Visit(pts, dist, t, i, clusters, visited);
    }
  }

  /** The body of ClusterSpots' loop for point `i`: a point not yet visited
      starts a new cluster, expanded from it. */
  method Visit(pts: seq<Coord>, dist: Distance, t: real, i: nat, clusters: seq<seq<nat>>, visited: set<nat>)
    returns (clusters': seq<seq<nat>>, visited': set<nat>)
    requires i < |pts| && Partial(pts, dist, t, i, clusters, visited)
    ensures Partial(pts, dist, t, i + 1, clusters', visited')
  {
    if i !in visited {
      var c, v := ExpandCluster(pts, dist, t, i, visited);
      ClusterStep(pts, dist, t, i, clusters, visited, c, v);
      clusters', visited' := clusters + [c], v;
    } else {
      PartialSkip(pts, dist, t, i, clusters, visited);
      clusters', visited' := clusters, visited;
    }
  }

  /** ClusterSpots' loop facts once the points below `i` have been visited. */
  predicate Partial(pts: seq<Coord>, dist: Distance, t: real, i: nat, clusters: seq<seq<nat>>, visited: set<nat>)
  {
    visited == Covered(clusters) &&
    (forall x :: x in visited ==> x < |pts|) &&
    (forall j :: 0 <= j < i ==> j in visited) &&
    Disjoint(clusters) &&
    (forall a :: 0 <= a < |clusters| ==> |clusters[a]| > 0 && clusters[a][0] < i) &&
    (forall a, k :: 0 <= a < |clusters| && 0 < k < |clusters[a]| ==> clusters[a][0] < clusters[a][k]) &&
    (forall a, b :: 0 <= a < b < |clusters| ==> clusters[a][0] < clusters[b][0]) &&
    (forall a :: 0 <= a < |clusters| ==> Linked(pts, dist, t, clusters[a])) &&
    (forall a :: 0 <= a < |clusters| ==> NeighboursIn(pts, dist, t, clusters[a], Covered(clusters[..a + 1])))
  }

  lemma {:induction false} PartialSkip(pts: seq<Coord>, dist: Distance, t: real, i: nat, clusters: seq<seq<nat>>, visited: set<nat>)
    requires Partial(pts, dist, t, i, clusters, visited) && i in visited
    ensures Partial(pts, dist, t, i + 1, clusters, visited)
  {
  }

  /** Appending a freshly expanded cluster keeps ClusterSpots' loop facts. */
  lemma {:induction false} ClusterStep(pts: seq<Coord>, dist: Distance, t: real, i: nat, clusters: seq<seq<nat>>, visited: set<nat>,
                                       c: seq<nat>, v: set<nat>)
    requires Partial(pts, dist, t, i, clusters, visited)
    requires i < |pts| && i !in visited
    requires |c| > 0 && c[0] == i
    requires v == visited + Elems(c)
    requires forall x :: x in v ==> x < |pts|
    requires NoDup(c) && forall x :: x in c ==> x !in visited
    requires Linked(pts, dist, t, c)
    requires NeighboursIn(pts, dist, t, c, v)
    ensures Partial(pts, dist, t, i + 1, clusters + [c], v)
  {
    CoverStep(pts, i, clusters, visited, c, v);
    forall k | 0 < k < |c|
      ensures c[0] < c[k]
    {
      assert c[k] !in visited && c[k] != c[0];
    }
    FirstsStep(clusters, c, i);
    LinkedStep(pts, dist, t, clusters, c);
    NeighboursStep(pts, dist, t, clusters, c);
  }

  /** The visited set after a new cluster covers it, is disjoint from the
      earlier ones, and takes in every index up to `i`. */
  lemma {:induction false} CoverStep(pts: seq<Coord>, i: nat, clusters: seq<seq<nat>>, visited: set<nat>, c: seq<nat>, v: set<nat>)
    requires visited == Covered(clusters) && Disjoint(clusters) && forall j :: 0 <= j < i ==> j in visited
    requires |c| > 0 && c[0] == i && v == visited + Elems(c)
    requires NoDup(c) && forall x :: x in c ==> x !in visited
    ensures v == Covered(clusters + [c]) && Disjoint(clusters + [c])
    ensures forall j :: 0 <= j < i + 1 ==> j in v
  {
    var cls := clusters + [c];
    assert cls[..|cls| - 1] == clusters;
    DisjointStep(clusters, c, visited);
  }

  lemma {:induction false} LinkedStep(pts: seq<Coord>, dist: Distance, t: real, clusters: seq<seq<nat>>, c: seq<nat>)
    requires forall a :: 0 <= a < |clusters| ==> Linked(pts, dist, t, clusters[a])
    requires Linked(pts, dist, t, c)
    ensures forall a :: 0 <= a < |clusters + [c]| ==> Linked(pts, dist, t, (clusters + [c])[a])
  {
    var cls := clusters + [c];
    forall a | 0 <= a < |cls|
      ensures Linked(pts, dist, t, cls[a])
    {
      if a < |clusters| {
        assert cls[a] == clusters[a];
      }
    }
  }

  lemma {:induction false} FirstsStep(clusters: seq<seq<nat>>, c: seq<nat>, i: nat)
    requires forall a :: 0 <= a < |clusters| ==> |clusters[a]| > 0 && clusters[a][0] < i
    requires forall a, k :: 0 <= a < |clusters| && 0 < k < |clusters[a]| ==> clusters[a][0] < clusters[a][k]
    requires forall a, b :: 0 <= a < b < |clusters| ==> clusters[a][0] < clusters[b][0]
    requires |c| > 0 && c[0] == i && forall k :: 0 < k < |c| ==> c[0] < c[k]
    ensures var cls := clusters + [c];
      (forall a :: 0 <= a < |cls| ==> |cls[a]| > 0 && cls[a][0] < i + 1) &&
      (forall a, k :: 0 <= a < |cls| && 0 < k < |cls[a]| ==> cls[a][0] < cls[a][k]) &&
      (forall a, b :: 0 <= a < b < |cls| ==> cls[a][0] < cls[b][0])
  {
    var cls := clusters + [c];
    assert forall a :: 0 <= a < |clusters| ==> cls[a] == clusters[a];
    assert cls[|clusters|] == c;
  }

  lemma {:induction false} DisjointStep(clusters: seq<seq<nat>>, c: seq<nat>, visited: set<nat>)
    requires Disjoint(clusters) && visited == Covered(clusters)
    requires NoDup(c) && forall x :: x in c ==> x !in visited
    ensures Disjoint(clusters + [c])
  {
    var cls := clusters + [c];
    forall a, b, x | 0 <= a < b < |cls| && x in cls[a]
      ensures x !in cls[b]
    {
      if b == |clusters| {
        CoveredMembers(clusters, x);
      } else {
        assert cls[a] == clusters[a] && cls[b] == clusters[b];
      }
    }
    assert forall a :: 0 <= a < |cls| ==> NoDup(cls[a]) by {
      assert forall a :: 0 <= a < |clusters| ==> cls[a] == clusters[a];
    }
  }

  lemma {:induction false} NeighboursStep(pts: seq<Coord>, dist: Distance, t: real, clusters: seq<seq<nat>>, c: seq<nat>)
    requires forall a :: 0 <= a < |clusters| ==> NeighboursIn(pts, dist, t, clusters[a], Covered(clusters[..a + 1]))
    requires NeighboursIn(pts, dist, t, c, Covered(clusters + [c]))
    ensures var cls := clusters + [c];
      forall a :: 0 <= a < |cls| ==> NeighboursIn(pts, dist, t, cls[a], Covered(cls[..a + 1]))
  {
    var cls := clusters + [c];
    forall a | 0 <= a < |cls|
      ensures NeighboursIn(pts, dist, t, cls[a], Covered(cls[..a + 1]))
    {
      if a < |clusters| {
        assert cls[..a + 1] == clusters[..a + 1];
        assert cls[a] == clusters[a];
      } else {
        assert cls[..a + 1] == cls;
      }
    }
  }

  /** A cluster is closed under the threshold relation when distance is
      symmetric: every point within `t` of a member is a member. */
  lemma {:induction false} ClustersClosed(pts: seq<Coord>, dist: Distance, t: real, clusters: seq<seq<nat>>, a: nat, x: nat, q: nat)
    requires forall u, w :: dist(u, w) == dist(w, u)
    requires forall b :: 0 <= b < |clusters| ==> NeighboursIn(pts, dist, t, clusters[b], Covered(clusters[..b + 1]))
    requires forall y: nat :: y in Covered(clusters) <==> y < |pts|
    requires Disjoint(clusters)
    requires a < |clusters| && x in clusters[a] && x < |pts| && q < |pts| && dist(pts[x], pts[q]) <= t
    ensures q in clusters[a]
  {
    CoveredMembers(clusters[..a + 1], q);
    var b :| 0 <= b < |clusters[..a + 1]| && q in clusters[..a + 1][b];
    assert q in clusters[b];
    if b < a {
      CoveredMembers(clusters[..b + 1], x);
      assert false;
    }
  }

  /** One hop: `y` lies within `t` of `x`. */
  predicate Hop(pts: seq<Coord>, dist: Distance, t: real, x: nat, y: nat)
  {
    x < |pts| && y < |pts| && dist(pts[x], pts[y]) <= t
  }

  /** A chain of points in which each is within `t` of the one before. */
  predicate IsPath(pts: seq<Coord>, dist: Distance, t: real, path: seq<nat>)
  {
    |path| <= 1 || (IsPath(pts, dist, t, path[..|path| - 1]) && Hop(pts, dist, t, path[|path| - 2], path[|path| - 1]))
  }

  /** Every member of a linked cluster is reached from its first member by
      hops of at most `t`, through members of the cluster. */
  lemma LinkedReachable(pts: seq<Coord>, dist: Distance, t: real, s: seq<nat>, k: nat)
    requires Linked(pts, dist, t, s) && k < |s|
    ensures exists path :: |path| > 0 && path[0] == s[0] && path[|path| - 1] == s[k] && IsPath(pts, dist, t, path) &&
                           forall y :: y in path ==> y in s
  {
    var path := PathWithin(pts, dist, t, s, k);
  }

  /** A hop path from the first member of a linked cluster to its `k`-th. */
  lemma {:induction false} PathWithin(pts: seq<Coord>, dist: Distance, t: real, s: seq<nat>, k: nat) returns (path: seq<nat>)
    requires Linked(pts, dist, t, s) && k < |s|
    ensures |path| > 0 && path[0] == s[0] && path[|path| - 1] == s[k] && IsPath(pts, dist, t, path)
    ensures forall y :: y in path ==> y in s
    decreases k
  {
    if k == 0 {
      path := [s[0]];
    } else {
      assert LinkedAt(pts, dist, t, s, k);
      var m :| 0 <= m < k && s[m] < |pts| && s[k] < |pts| && dist(pts[s[m]], pts[s[k]]) <= t;
      var prefix := PathWithin(pts, dist, t, s, m);
      path := prefix + [s[k]];
      assert path[..|path| - 1] == prefix;
      assert path[|path| - 2] == s[m] && path[|path| - 1] == s[k];
      assert IsPath(pts, dist, t, path);
      assert forall y :: y in path ==> y in prefix || y == s[k];
    }
  }

  /** The number of entries over all clusters. */
  function TotalSize(cls: seq<seq<nat>>): nat
  {
    if cls == [] then 0 else TotalSize(cls[..|cls| - 1]) + |cls[|cls| - 1]|
  }

  /** A list without repeats has as many distinct elements as entries. */
  lemma {:induction false} ElemsSize(s: seq<nat>)
    requires NoDup(s)
    ensures |Elems(s)| == |s|
  {
    if s != [] {
      var init := s[..|s| - 1];
      ElemsSize(init);
      assert Elems(s) == Elems(init) + {s[|s| - 1]};
      assert s[|s| - 1] !in Elems(init);
    }
  }

  /** Clusters that share no point and repeat no point hold as many
      entries as they cover points. */
  lemma {:induction false} DisjointSize(cls: seq<seq<nat>>)
    requires Disjoint(cls)
    ensures |Covered(cls)| == TotalSize(cls)
  {
    if cls != [] {
      var init := cls[..|cls| - 1];
      var last := cls[|cls| - 1];
      assert Disjoint(init) by {
        assert forall a :: 0 <= a < |init| ==> init[a] == cls[a];
      }
      DisjointSize(init);
      ElemsSize(last);
      forall x | x in Covered(init)
        ensures x !in Elems(last)
      {
        CoveredMembers(init, x);
      }
      assert Covered(init) !! Elems(last);
    }
  }

  /** Clusters that partition the points `0 .. n - 1` hold `n` entries in all:
      every point is counted once. */
  lemma PartitionSize(cls: seq<seq<nat>>, n: nat)
    requires Disjoint(cls)
    requires forall x: nat :: x in Covered(cls) <==> x < n
    ensures TotalSize(cls) == n
  {
    DisjointSize(cls);
    assert Covered(cls) == RangeSet(n);
  }
}
