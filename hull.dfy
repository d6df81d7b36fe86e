/** The gift-wrapping outline drawn around a cluster of zone points. Points
    are identified by their index, as the source compares them by identity;
    the tie-break distance is an input. */
module Hull {
  import opened Geo

  /** `a` is further west than `b`, or as far west and further south. */
  predicate WestOf(a: Coord, b: Coord)
  {
    a.lon < b.lon || (a.lon == b.lon && a.lat < b.lat)
  }

  /** The start vertex: the first point that no other point is west of. */
  method LeftmostIndex(pts: seq<Coord>) returns (s: nat)
    requires |pts| > 0
    ensures s < |pts|
    ensures forall i :: 0 <= i < |pts| ==> !WestOf(pts[i], pts[s])
    ensures forall i :: 0 <= i < s ==> WestOf(pts[s], pts[i])
  {
    s := 0;
    for i := 0 to |pts|
      invariant s < |pts| && (s == 0 || s < i)
      invariant forall k :: 0 <= k < i ==> !WestOf(pts[k], pts[s])
      invariant forall k :: 0 <= k < s ==> WestOf(pts[s], pts[k])
    {
      if WestOf(pts[i], pts[s]) {
        s := i;
      }
    }
  }

  /** The turn test of one scan step, with longitude as x and latitude as y:
      positive when `p` lies clockwise of `q` as seen from `c`. */
  function Cross(c: Coord, p: Coord, q: Coord): real
  {
    (p.lon - c.lon) * (q.lat - c.lat) - (p.lat - c.lat) * (q.lon - c.lon)
  }

  /** Point `i` replaces the candidate `next` while wrapping from `cur`: it
      turns further, or it is collinear and further away. */
  predicate Beats(pts: seq<Coord>, dist: Distance, cur: nat, i: nat, next: nat)
    requires cur < |pts| && i < |pts| && next < |pts|
  {
    var cr := Cross(pts[cur], pts[i], pts[next]);
    cr > 0.0 || (cr == 0.0 && dist(pts[cur], pts[i]) > dist(pts[cur], pts[next]))
  }

  /** The candidate left after scanning the points from `i` on, starting
      from candidate `next`; a candidate equal to `cur` is replaced by the
      next point unconditionally. */
  function Scan(pts: seq<Coord>, dist: Distance, cur: nat, i: nat, next: nat): (r: nat)
    requires cur < |pts| && next < |pts|
    ensures r < |pts|
    decreases |pts| - i
  {
    if i >= |pts| then next
    else if next == cur then Scan(pts, dist, cur, i + 1, i)
    else if Beats(pts, dist, cur, i, next) then Scan(pts, dist, cur, i + 1, i)
    else Scan(pts, dist, cur, i + 1, next)
  }

  /** The vertex that follows `cur` on the wrap. */
  function Successor(pts: seq<Coord>, dist: Distance, cur: nat): (r: nat)
    requires cur < |pts|
    ensures r < |pts|
  {
    Scan(pts, dist, cur, 1, 0)
  }

  /** Distance from a point to itself is never more than to any point. */
  ghost predicate SelfNearest(dist: Distance)
  {
    forall u, w :: dist(u, u) <= dist(u, w)
  }

  /** The inner scan of one wrap step. */
  method NextVertex(pts: seq<Coord>, dist: Distance, cur: nat) returns (next: nat)
    requires cur < |pts|
    ensures next == Successor(pts, dist, cur)
  {
    next := 0;
    for i := 1 to |pts|
      invariant next < |pts| && next < i
      invariant Scan(pts, dist, cur, i, next) == Successor(pts, dist, cur)
    {
      if next == cur {
        next := i;
      } else if Beats(pts, dist, cur, i, next) {
        next := i;
      }
    }
  }

  /** What the scan guarantees of the candidate it ends with: unless it is
      `cur` itself, no later point beats it; and with a distance that is
      least from a point to itself, it is never `cur` once any point has
      been scanned after a candidate equal to `cur`. */
  lemma {:induction false} ScanResult(pts: seq<Coord>, dist: Distance, cur: nat, i: nat, next: nat)
    requires cur < |pts| && next < |pts| && next < i
    requires next != cur ==> forall k :: next < k < i && k < |pts| ==> !Beats(pts, dist, cur, k, next)
    ensures var r := Scan(pts, dist, cur, i, next);
      r != cur ==> forall k :: r < k < |pts| ==> !Beats(pts, dist, cur, k, r)
    decreases |pts| - i
  {
    if i < |pts| {
      if next == cur || Beats(pts, dist, cur, i, next) {
        ScanResult(pts, dist, cur, i + 1, i);
      } else {
        ScanResult(pts, dist, cur, i + 1, next);
      }
    }
  }

  lemma {:induction false} ScanMoves(pts: seq<Coord>, dist: Distance, cur: nat, i: nat, next: nat)
    requires cur < |pts| && next < |pts| && next < i
    requires SelfNearest(dist) && (next != cur || i < |pts|)
    ensures Scan(pts, dist, cur, i, next) != cur
    decreases |pts| - i
  {
    if i < |pts| {
      if next == cur || Beats(pts, dist, cur, i, next) {
        if i + 1 < |pts| || i != cur {
          ScanMoves(pts, dist, cur, i + 1, i);
        }
      } else {
        if next != cur && i == cur {
          assert Cross(pts[cur], pts[i], pts[next]) == 0.0;
        }
        ScanMoves(pts, dist, cur, i + 1, next);
      }
    }
  }

  /** The vertex after `cur` is another point, and no point after it in the
      input turns further or lies collinear and further away. */
  lemma SuccessorChoice(pts: seq<Coord>, dist: Distance, cur: nat)
    requires cur < |pts| && |pts| >= 2 && SelfNearest(dist)
    ensures Successor(pts, dist, cur) != cur
    ensures forall k :: Successor(pts, dist, cur) < k < |pts| ==> !Beats(pts, dist, cur, k, Successor(pts, dist, cur))
  {
    ScanResult(pts, dist, cur, 1, 0);
    ScanMoves(pts, dist, cur, 1, 0);
  }

  /** The do-while loop of the wrap: starting at `start`, it appends the
      current vertex and moves to its successor until it is back at `start`
      or has made twice as many steps as there are points. */
  method GiftWrap(pts: seq<Coord>, dist: Distance, start: nat) returns (hull: seq<nat>)
    requires start < |pts|
    ensures 1 <= |hull| <= 2 * |pts|
    ensures hull[0] == start
    ensures forall k :: 0 <= k < |hull| ==> hull[k] < |pts|
    ensures forall k :: 0 < k < |hull| ==> hull[k] != start && hull[k] == Successor(pts, dist, hull[k - 1])
    ensures |hull| < 2 * |pts| ==> Successor(pts, dist, hull[|hull| - 1]) == start
  {
    hull := [];
    var current := start;
    var iterations := 0;
    while true
      invariant |hull| == iterations < 2 * |pts|
      invariant current < |pts|
      invariant iterations == 0 ==> current == start
      invariant forall k :: 0 <= k < |hull| ==> hull[k] < |pts|
      invariant iterations > 0 ==> hull[0] == start && current == Successor(pts, dist, hull[|hull| - 1]) && current != start
      invariant forall k :: 0 < k < |hull| ==> hull[k] != start && hull[k] == Successor(pts, dist, hull[k - 1])
      decreases 2 * |pts| - iterations
    {
      hull := hull + [current];
      current := NextVertex(pts, dist, current);
      iterations := iterations + 1;
      if !(current != start && iterations < 2 * |pts|) {
        break;
      }
    }
  }

  /** The outline of a cluster, as indices into its points: fewer than three
      points are returned as they are; otherwise the wrap from the westmost
      point. */
  method ComputeConvexHull(pts: seq<Coord>, dist: Distance) returns (hull: seq<nat>)
    ensures |pts| < 3 ==> hull == seq(|pts|, i => i)
    ensures |pts| >= 3 ==> 1 <= |hull| <= 2 * |pts|
    ensures forall k :: 0 <= k < |hull| ==> hull[k] < |pts|
    ensures |pts| >= 3 ==> forall i :: 0 <= i < |pts| ==> !WestOf(pts[i], pts[hull[0]])
    ensures |pts| >= 3 ==> forall i :: 0 <= i < hull[0] ==> WestOf(pts[hull[0]], pts[i])
    ensures forall k :: 0 < k < |hull| && |pts| >= 3 ==> hull[k] == Successor(pts, dist, hull[k - 1])
  {
    if |pts| < 3 {
      return seq(|pts|, i => i);
    }
    var start := LeftmostIndex(pts);
    hull := GiftWrap(pts, dist, start);
  }
}
