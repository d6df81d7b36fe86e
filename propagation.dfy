/** Propagation zones: each spot is classified as outbound (the observer's
    signal, or a nearby transmitter's, heard elsewhere) or inbound (a
    distant signal heard near the observer); the points are grouped by band
    and direction, clustered, and summarised; and inbound and outbound
    clusters of one band whose centres are close are flagged as
    bidirectional. Great-circle distance is an input. */
module Propagation {
  import opened Common
  import opened Geo
  import opened Bands
  import opened HamDb
  import opened Spots
  import opened Clustering
  import opened Hull

  /** Points at most this far apart (km) belong to one cluster. */
  const CLUSTER_KM: real := 1500.0
  /** Inbound and outbound cluster centres at most this far apart (km) make both bidirectional. */
  const BIDIRECTIONAL_KM: real := 1500.0
  /** A station within this distance (km) of a cluster centre is in that zone. */
  const ZONE_KM: real := 1500.0

  datatype Direction = Outbound | Inbound

  /** The observer the zones are built for: callsign, position and the
      radius within which a station counts as nearby. */
  datatype Observer = Observer(call: string, coords: Coord, proximityKm: real)

  /** A zone point: where the signal was received (outbound) or sent from
      (inbound), with the spot's SNR. */
  datatype ZonePoint = ZonePoint(at: Coord, snr: int)

  /** A spot that takes part in a zone. */
  datatype Directed = Directed(band: Band, direction: Direction, point: ZonePoint)

  /** The transmitter is placed, and it is the observer or lies within the radius. */
  predicate IsOutbound(cache: map<string, CacheEntry>, dist: Distance, obs: Observer, s: Spot)
  {
    var tx := TxCoords(cache, s);
    tx.Some? && (TxCall(s) == Upper(obs.call) || dist(obs.coords, tx.value) <= obs.proximityKm)
  }

  /** Not outbound, and the spotter is placed within the radius. */
  predicate IsInbound(cache: map<string, CacheEntry>, dist: Distance, obs: Observer, s: Spot)
  {
    var rx := SpotterCoords(cache, s);
    !IsOutbound(cache, dist, obs, s) && rx.Some? && dist(obs.coords, rx.value) <= obs.proximityKm
  }

  /** The zone point a spot contributes, if any: a spot on a band whose
      direction is decided and whose far end (the spotter for outbound,
      the transmitter for inbound) is placed. */
  function ClassifySpot(cache: map<string, CacheEntry>, dist: Distance, obs: Observer, s: Spot): (r: Option<Directed>)
    ensures r.Some? <==> (GetBandFromFreq(s.frequency).Some? &&
      ((IsOutbound(cache, dist, obs, s) && SpotterCoords(cache, s).Some?) ||
       (IsInbound(cache, dist, obs, s) && TxCoords(cache, s).Some?)))
    ensures r.Some? ==> r.value.band == GetBandFromFreq(s.frequency).value && r.value.band in BANDS
    ensures r.Some? ==> r.value.point.snr == SnrOrZero(s)
    ensures r.Some? ==> (r.value.direction == Outbound <==> IsOutbound(cache, dist, obs, s))
    ensures r.Some? && r.value.direction == Outbound ==> r.value.point.at == SpotterCoords(cache, s).value
    ensures r.Some? && r.value.direction == Inbound ==> r.value.point.at == TxCoords(cache, s).value
  {
    var band := GetBandFromFreq(s.frequency);
    if band.None? then None
    else
      var rx := SpotterCoords(cache, s);
      var tx := TxCoords(cache, s);
      var outbound := tx.Some? && (TxCall(s) == Upper(obs.call) || dist(obs.coords, tx.value) <= obs.proximityKm);
      var inbound := !outbound && rx.Some? && dist(obs.coords, rx.value) <= obs.proximityKm;
      var target := if outbound then rx else if inbound then tx else None;
      if (outbound || inbound) && target.Some? then
        Some(Directed(band.value, if outbound then Outbound else Inbound, ZonePoint(target.value, SnrOrZero(s))))
      else None
  }

  /** An outbound spot whose spotter cannot be placed is dropped; it is not
      tried again as inbound. */
  lemma OutboundNotRetried(cache: map<string, CacheEntry>, dist: Distance, obs: Observer, s: Spot)
    requires IsOutbound(cache, dist, obs, s) && SpotterCoords(cache, s).None?
    ensures ClassifySpot(cache, dist, obs, s).None?
    ensures !IsInbound(cache, dist, obs, s)
  {
  }

  /** The observer's own transmissions are outbound wherever its locator
      places it. */
  lemma OwnCallOutbound(cache: map<string, CacheEntry>, dist: Distance, obs: Observer, s: Spot)
    requires TxCall(s) == Upper(obs.call) && TxCoords(cache, s).Some?
    ensures IsOutbound(cache, dist, obs, s) && !IsInbound(cache, dist, obs, s)
  {
  }

  /** The grouping key: `${band.name}-${direction}`. */
  datatype GroupKey = GroupKey(bandName: string, direction: Direction)

  function KeyOf(d: Directed): GroupKey
  {
    GroupKey(d.band.name, d.direction)
  }

  /** The zone points of the spots, in spot order. */
  function ClassifyAll(cache: map<string, CacheEntry>, dist: Distance, obs: Observer, spots: seq<Spot>): (r: seq<Directed>)
    ensures |r| <= |spots|
    ensures forall i :: 0 <= i < |r| ==> r[i].band in BANDS
  {
    if spots == [] then []
    else
      var prev := ClassifyAll(cache, dist, obs, spots[..|spots| - 1]);
      var d := ClassifySpot(cache, dist, obs, spots[|spots| - 1]);
      if d.Some? then prev + [d.value] else prev
  }

  function Keys(ds: seq<Directed>): (r: seq<GroupKey>)
    ensures |r| == |ds| && forall i :: 0 <= i < |ds| ==> r[i] == KeyOf(ds[i])
  {
    seq(|ds|, i requires 0 <= i < |ds| => KeyOf(ds[i]))
  }

  /** The points of the classified spots with key `k`, in spot order. */
  function PointsWith(ds: seq<Directed>, k: GroupKey): (r: seq<ZonePoint>)
    ensures |r| <= |ds|
  {
    if ds == [] then []
    else
      var prev := PointsWith(ds[..|ds| - 1], k);
      if KeyOf(ds[|ds| - 1]) == k then prev + [ds[|ds| - 1].point] else prev
  }

  /** One entry of the grouping dictionary. */
  datatype Group = Group(band: Band, direction: Direction, points: seq<ZonePoint>, spotCount: nat)

  /** A group agrees with the classified spots of its key. */
  predicate GroupOf(g: Group, ds: seq<Directed>, k: GroupKey)
  {
    g.points == PointsWith(ds, k) && g.spotCount == |g.points| &&
    g.direction == k.direction && g.band.name == k.bandName && g.band in BANDS
  }

  /** The grouping dictionary and its key order agree with the classified spots `ds`. */
  ghost predicate Grouped(ds: seq<Directed>, order: seq<GroupKey>, groups: map<GroupKey, Group>)
  {
    order == Distinct(Keys(ds)) &&
    (forall k :: k in groups <==> k in order) &&
    (forall k :: k in groups ==> GroupOf(groups[k], ds, k))
  }

  /** The grouping loop: the keys in order of first appearance (the key
      order of the dictionary) and, per key, its points in spot order. */
  method GroupSpots(cache: map<string, CacheEntry>, dist: Distance, obs: Observer, spots: seq<Spot>)
    returns (order: seq<GroupKey>, groups: map<GroupKey, Group>)
    ensures order == Distinct(Keys(ClassifyAll(cache, dist, obs, spots)))
    ensures forall k :: k in groups <==> k in order
    ensures forall k :: k in groups ==> GroupOf(groups[k], ClassifyAll(cache, dist, obs, spots), k)
  {
    order, groups := [], map[];
    ghost var ds: seq<Directed> := [];
    for i := 0 to |spots|
      invariant ds == ClassifyAll(cache, dist, obs, spots[..i])
      invariant Grouped(ds, order, groups)
    {
      var d := ClassifySpot(cache, dist, obs, spots[i]);
      ClassifyAllStep(cache, dist, obs, spots, i);
      if d.Some? {
        order, groups := AddToGroup(ds, d.value, order, groups);
        ds := ds + [d.value];
      }
    }
    assert spots[..|spots|] == spots;
  }

  /** The body of the grouping loop for one classified spot: its group is
      created (and its key appended to the order) on first sight, then the
      point is appended and the count incremented. */
  method AddToGroup(ghost ds: seq<Directed>, d: Directed, order: seq<GroupKey>, groups: map<GroupKey, Group>)
    returns (order': seq<GroupKey>, groups': map<GroupKey, Group>)
    requires Grouped(ds, order, groups) && d.band in BANDS
    ensures Grouped(ds + [d], order', groups')
  {
    var key := KeyOf(d);
    order', groups' := order, groups;
    if key !in groups' {
      groups' := groups'[key := Group(d.band, d.direction, [], 0)];
      order' := order' + [key];
    }
    ghost var g1 := groups';
    groups' := groups'[key := groups'[key].(points := groups'[key].points + [d.point],
                                            spotCount := groups'[key].spotCount + 1)];
    GroupedAdd(ds, d, order, groups, order', g1, groups');
  }

  /** One spot added to the grouping dictionary keeps it in agreement. */
  lemma {:induction false} GroupedAdd(ds: seq<Directed>, d: Directed, order: seq<GroupKey>, groups: map<GroupKey, Group>,
                                      o1: seq<GroupKey>, g1: map<GroupKey, Group>, g2: map<GroupKey, Group>)
    requires Grouped(ds, order, groups) && d.band in BANDS
    requires KeyOf(d) in groups ==> o1 == order && g1 == groups
    requires KeyOf(d) !in groups ==> o1 == order + [KeyOf(d)] && g1 == groups[KeyOf(d) := Group(d.band, d.direction, [], 0)]
    requires KeyOf(d) in g1 && g2 == g1[KeyOf(d) := g1[KeyOf(d)].(points := g1[KeyOf(d)].points + [d.point],
                                                                  spotCount := g1[KeyOf(d)].spotCount + 1)]
    ensures Grouped(ds + [d], o1, g2)
  {
    OrderAdd(ds, d, order, o1);
    GroupsAdd(ds, d, groups, g1, g2);
  }

  lemma {:induction false} GroupsAdd(ds: seq<Directed>, d: Directed, groups: map<GroupKey, Group>,
                                     g1: map<GroupKey, Group>, g2: map<GroupKey, Group>)
    requires forall k :: k in groups ==> GroupOf(groups[k], ds, k)
    requires KeyOf(d) !in groups ==> KeyOf(d) !in Keys(ds)
    requires d.band in BANDS
    requires KeyOf(d) in groups ==> g1 == groups
    requires KeyOf(d) !in groups ==> g1 == groups[KeyOf(d) := Group(d.band, d.direction, [], 0)]
    requires KeyOf(d) in g1 && g2 == g1[KeyOf(d) := g1[KeyOf(d)].(points := g1[KeyOf(d)].points + [d.point],
                                                                  spotCount := g1[KeyOf(d)].spotCount + 1)]
    ensures forall k :: k in g2 ==> GroupOf(g2[k], ds + [d], k)
  {
    var key := KeyOf(d);
    if key !in groups {
      PointsWithAbsent(ds, key);
    }
    forall k | k in g2
      ensures GroupOf(g2[k], ds + [d], k)
    {
      var g := if k in groups then groups[k] else Group(d.band, d.direction, [], 0);
      assert g1[k] == g && GroupOf(g, ds, k);
      GroupOfStep(ds, d, g, k);
    }
  }

  lemma {:induction false} OrderAdd(ds: seq<Directed>, d: Directed, order: seq<GroupKey>, o1: seq<GroupKey>)
    requires order == Distinct(Keys(ds))
    requires KeyOf(d) in order ==> o1 == order
    requires KeyOf(d) !in order ==> o1 == order + [KeyOf(d)]
    ensures o1 == Distinct(Keys(ds + [d]))
  {
    KeysAppend(ds, d);
    DistinctAppend(Keys(ds), KeyOf(d));
  }

  lemma {:induction false} GroupOfStep(ds: seq<Directed>, d: Directed, g: Group, k: GroupKey)
    requires GroupOf(g, ds, k)
    ensures GroupOf(if KeyOf(d) == k then g.(points := g.points + [d.point], spotCount := g.spotCount + 1) else g, ds + [d], k)
  {
    PointsWithAppend(ds, d, k);
  }

  lemma {:induction false} ClassifyAllStep(cache: map<string, CacheEntry>, dist: Distance, obs: Observer, spots: seq<Spot>, i: nat)
    requires i < |spots|
    ensures var d := ClassifySpot(cache, dist, obs, spots[i]);
      ClassifyAll(cache, dist, obs, spots[..i + 1]) ==
        (if d.Some? then ClassifyAll(cache, dist, obs, spots[..i]) + [d.value] else ClassifyAll(cache, dist, obs, spots[..i]))
  {
    assert spots[..i + 1][..i] == spots[..i];
  }

  lemma {:induction false} PointsWithAbsent(ds: seq<Directed>, k: GroupKey)
    requires k !in Keys(ds)
    ensures PointsWith(ds, k) == []
  {
    if ds != [] {
      KeysAppend(ds[..|ds| - 1], ds[|ds| - 1]);
      assert ds[..|ds| - 1] + [ds[|ds| - 1]] == ds;
      PointsWithAbsent(ds[..|ds| - 1], k);
    }
  }

  lemma {:induction false} KeysAppend(ds: seq<Directed>, d: Directed)
    ensures Keys(ds + [d]) == Keys(ds) + [KeyOf(d)]
  {
  }

  lemma {:induction false} PointsWithAppend(ds: seq<Directed>, d: Directed, k: GroupKey)
    ensures PointsWith(ds + [d], k) == if KeyOf(d) == k then PointsWith(ds, k) + [d.point] else PointsWith(ds, k)
  {
    assert (ds + [d])[..|ds|] == ds;
  }

  /** One cluster of a zone: its points, their outline, the number of
      spots, the best SNR, the centre and whether it has a partner cluster
      of the opposite direction. */
  datatype ZoneCluster = ZoneCluster(points: seq<ZonePoint>, hull: seq<ZonePoint>, spotCount: nat,
                                     bestSnr: int, centroid: Coord, bidirectional: bool)

  /** The zone of one band and direction. */
  datatype Zone = Zone(band: Band, direction: Direction, clusters: seq<ZoneCluster>, totalSpots: nat)

  function ZoneKey(z: Zone): GroupKey
  {
    GroupKey(z.band.name, z.direction)
  }

  /** Where the points are. */
  function Locations(ps: seq<ZonePoint>): (r: seq<Coord>)
    ensures |r| == |ps| && forall i :: 0 <= i < |ps| ==> r[i] == ps[i].at
  {
    seq(|ps|, i requires 0 <= i < |ps| => ps[i].at)
  }

  /** The points named by a list of indices, in that order. */
  function Select(ps: seq<ZonePoint>, idx: seq<nat>): (r: seq<ZonePoint>)
    requires Indices(idx, |ps|)
    ensures |r| == |idx| && forall k :: 0 <= k < |idx| ==> r[k] == ps[idx[k]]
  {
    seq(|idx|, k requires 0 <= k < |idx| => ps[idx[k]])
  }

  function SumLat(ps: seq<ZonePoint>): real
  {
    if ps == [] then 0.0 else SumLat(ps[..|ps| - 1]) + ps[|ps| - 1].at.lat
  }

  function SumLon(ps: seq<ZonePoint>): real
  {
    if ps == [] then 0.0 else SumLon(ps[..|ps| - 1]) + ps[|ps| - 1].at.lon
  }

  /** The centre of a cluster: the arithmetic mean of its latitudes and of
      its longitudes. */
  function Centroid(ps: seq<ZonePoint>): (c: Coord)
    requires |ps| > 0
    ensures (forall i :: 0 <= i < |ps| ==> ps[i].at == ps[0].at) ==> c == ps[0].at
  {
    var p := ps[0].at;
    if forall i :: 0 <= i < |ps| ==> ps[i].at == p then
      SumBounds(ps, p.lat, p.lat, p.lon, p.lon);
      DivideBounds(SumLat(ps), |ps|, p.lat, p.lat);
      DivideBounds(SumLon(ps), |ps|, p.lon, p.lon);
      Coord(SumLat(ps) / |ps| as real, SumLon(ps) / |ps| as real)
    else
      Coord(SumLat(ps) / |ps| as real, SumLon(ps) / |ps| as real)
  }

  /** `k` copies of `x` added up. */
  function Times(x: real, k: nat): real
  {
    if k == 0 then 0.0 else Times(x, k - 1) + x
  }

  lemma {:induction false} TimesIsProduct(x: real, k: nat)
    ensures Times(x, k) == x * k as real
  {
    if k > 0 {
      TimesIsProduct(x, k - 1);
      assert x * k as real == x * (k - 1) as real + x;
    }
  }

  lemma {:induction false} SumBounds(ps: seq<ZonePoint>, south: real, north: real, west: real, east: real)
    requires forall i :: 0 <= i < |ps| ==> south <= ps[i].at.lat <= north && west <= ps[i].at.lon <= east
    ensures Times(south, |ps|) <= SumLat(ps) <= Times(north, |ps|)
    ensures Times(west, |ps|) <= SumLon(ps) <= Times(east, |ps|)
  {
    if ps != [] {
      var init := ps[..|ps| - 1];
      assert forall i :: 0 <= i < |init| ==> init[i] == ps[i];
      SumBounds(init, south, north, west, east);
    }
  }

  /** The centre of a cluster lies within any box that holds all its points. */
  lemma CentroidWithin(ps: seq<ZonePoint>, south: real, north: real, west: real, east: real)
    requires |ps| > 0
    requires forall i :: 0 <= i < |ps| ==> south <= ps[i].at.lat <= north && west <= ps[i].at.lon <= east
    ensures south <= Centroid(ps).lat <= north && west <= Centroid(ps).lon <= east
  {
    SumBounds(ps, south, north, west, east);
    DivideBounds(SumLat(ps), |ps|, south, north);
    DivideBounds(SumLon(ps), |ps|, west, east);
  }

  lemma DivideBounds(s: real, k: nat, lo: real, hi: real)
    requires k > 0 && Times(lo, k) <= s <= Times(hi, k)
    ensures lo <= s / k as real <= hi
  {
    TimesIsProduct(lo, k);
    TimesIsProduct(hi, k);
    var n := k as real;
    assert (s / n) * n == s;
  }

  /** The best SNR of a cluster: the largest of its points' SNRs. */
  function MaxSnr(ps: seq<ZonePoint>): (r: int)
    requires |ps| > 0
    ensures forall i :: 0 <= i < |ps| ==> ps[i].snr <= r
    ensures exists i :: 0 <= i < |ps| && ps[i].snr == r
  {
    if |ps| == 1 then ps[0].snr
    else
      var m := MaxSnr(ps[..|ps| - 1]);
      assert forall i :: 0 <= i < |ps| - 1 ==> ps[..|ps| - 1][i] == ps[i];
      if ps[|ps| - 1].snr > m then ps[|ps| - 1].snr else m
  }

  /** A cluster's figures agree with its points: one spot per point, the
      best SNR is the largest SNR, the centre is the mean position, the
      outline is drawn through its own points and is at most twice as long,
      and fewer than three points are their own outline. */
  predicate Summarises(c: ZoneCluster)
  {
    |c.points| > 0 && c.spotCount == |c.points| &&
    (forall p :: p in c.points ==> p.snr <= c.bestSnr) &&
    (exists p :: p in c.points && p.snr == c.bestSnr) &&
    c.centroid == Centroid(c.points) &&
    (forall v :: v in c.hull ==> v in c.points) &&
    |c.hull| <= 2 * |c.points| &&
    (|c.points| < 3 ==> c.hull == c.points)
  }

  /** The summary of one cluster of a group's points, given by its indices;
      it starts out without a partner. */
  method BuildCluster(pts: seq<ZonePoint>, idx: seq<nat>, dist: Distance) returns (c: ZoneCluster)
    requires |idx| > 0 && Indices(idx, |pts|)
    ensures c.points == Select(pts, idx)
    ensures Summarises(c) && !c.bidirectional
    ensures |c.points| >= 3 ==> |c.hull| > 0 && forall p :: p in c.points ==> !WestOf(p.at, c.hull[0].at)
  {
    var points := Select(pts, idx);
    var h := ComputeConvexHull(Locations(points), dist);
    var hull := Select(points, h);
    if |points| < 3 {
      assert hull == points;
    }
    var best := MaxSnr(points);
    c := ZoneCluster(points, hull, |points|, best, Centroid(points), false);
    forall p | p in c.points
      ensures p.snr <= c.bestSnr
    {
    }
  }

  /** The spots summed over a zone's clusters. */
  function SumCounts(cs: seq<ZoneCluster>): nat
  {
    if cs == [] then 0 else SumCounts(cs[..|cs| - 1]) + cs[|cs| - 1].spotCount
  }

  lemma {:induction false} SumCountsIsTotalSize(cs: seq<ZoneCluster>, cls: seq<seq<nat>>)
    requires |cs| == |cls| && forall a :: 0 <= a < |cs| ==> cs[a].spotCount == |cls[a]|
    ensures SumCounts(cs) == TotalSize(cls)
  {
    if cs != [] {
      SumCountsIsTotalSize(cs[..|cs| - 1], cls[..|cls| - 1]);
    }
  }

  /** A zone agrees with the group it was built from. */
  predicate ZoneOfGroup(z: Zone, g: Group)
  {
    z.band == g.band && z.direction == g.direction && z.totalSpots == g.spotCount &&
    (g.spotCount == |g.points| ==> SumCounts(z.clusters) == z.totalSpots) &&
    forall c :: c in z.clusters ==> Summarises(c)
  }

  /** The zone of one group: its points clustered at CLUSTER_KM (returned as
      index lists, which partition the points), each cluster summarised. */
  method BuildZone(g: Group, dist: Distance) returns (z: Zone, cls: seq<seq<nat>>)
    ensures ZoneOfGroup(z, g)
    ensures forall c :: c in z.clusters ==> !c.bidirectional
    ensures Disjoint(cls) && forall x: nat :: x in Covered(cls) <==> x < |g.points|
    ensures forall a :: 0 <= a < |cls| ==> |cls[a]| > 0 && Indices(cls[a], |g.points|)
    ensures |z.clusters| == |cls| && forall a :: 0 <= a < |cls| ==> z.clusters[a].points == Select(g.points, cls[a])
  {
    cls := ClusterSpots(Locations(g.points), dist, CLUSTER_KM);
    forall a | 0 <= a < |cls|
      ensures Indices(cls[a], |g.points|)
    {
      forall k | 0 <= k < |cls[a]|
        ensures cls[a][k] < |g.points|
      {
        CoveredMembers(cls, cls[a][k]);
      }
    }
    var clusters: seq<ZoneCluster> := [];
    for a := 0 to |cls|
      invariant |clusters| == a
      invariant forall b :: 0 <= b < a ==>
        (clusters[b].points == Select(g.points, cls[b]) && Summarises(clusters[b]) && !clusters[b].bidirectional)
    {
      var c := BuildCluster(g.points, cls[a], dist);
      clusters := clusters + [c];
    }
    z := Zone(g.band, g.direction, clusters, g.spotCount);
    SumCountsIsTotalSize(clusters, cls);
    PartitionSize(cls, |g.points|);
  }

  /** The clusters have the same figures, flags aside. */
  predicate SameClusters(a: seq<ZoneCluster>, b: seq<ZoneCluster>)
  {
    |a| == |b| && forall k :: 0 <= k < |a| ==> a[k].(bidirectional := false) == b[k].(bidirectional := false)
  }

  /** The zones are the same, cluster flags aside. */
  predicate SameZones(a: seq<Zone>, b: seq<Zone>)
  {
    |a| == |b| &&
    forall m :: 0 <= m < |a| ==> a[m].(clusters := []) == b[m].(clusters := []) && SameClusters(a[m].clusters, b[m].clusters)
  }

  /** An inbound and an outbound cluster whose centres are close enough. */
  predicate Close(dist: Distance, inC: ZoneCluster, outC: ZoneCluster)
  {
    dist(inC.centroid, outC.centroid) <= BIDIRECTIONAL_KM
  }

  /** The first zone of the band name and direction, or |zones| when there is none. */
  function FindZone(zones: seq<Zone>, name: string, dir: Direction): (r: nat)
    ensures r <= |zones|
    ensures r < |zones| ==> zones[r].band.name == name && zones[r].direction == dir
    ensures forall m :: 0 <= m < r ==> !(zones[m].band.name == name && zones[m].direction == dir)
  {
    if zones == [] then 0
    else if zones[0].band.name == name && zones[0].direction == dir then 0
    else 1 + FindZone(zones[1..], name, dir)
  }

  /** Cluster `c` of zone `m` is flagged when the inbound zone `iz` is paired
      with the outbound zone `ou`. */
  ghost predicate PairMarks(zones: seq<Zone>, dist: Distance, iz: nat, ou: nat, m: nat, c: nat)
    requires iz < |zones| && ou < |zones| && m < |zones| && c < |zones[m].clusters|
  {
    (m == iz && exists o :: 0 <= o < |zones[ou].clusters| && Close(dist, zones[iz].clusters[c], zones[ou].clusters[o])) ||
    (m == ou && exists i :: 0 <= i < |zones[iz].clusters| && Close(dist, zones[iz].clusters[i], zones[ou].clusters[c]))
  }

  /** Cluster `c` of zone `m` is flagged by the pass for the band named `name`. */
  ghost predicate MarkedFor(zones: seq<Zone>, dist: Distance, name: string, m: nat, c: nat)
    requires m < |zones| && c < |zones[m].clusters|
  {
    var iz := FindZone(zones, name, Inbound);
    var ou := FindZone(zones, name, Outbound);
    iz < |zones| && ou < |zones| && PairMarks(zones, dist, iz, ou, m, c)
  }

  /** The inner loop of the pass: cluster `c` against every outbound
      cluster; a close pair flags both. */
  method MarkAgainst(dist: Distance, c: ZoneCluster, outs: seq<ZoneCluster>) returns (c': ZoneCluster, outs': seq<ZoneCluster>)
    ensures c'.(bidirectional := false) == c.(bidirectional := false) && SameClusters(outs, outs')
    ensures c'.bidirectional == (c.bidirectional || exists o :: 0 <= o < |outs| && Close(dist, c, outs[o]))
    ensures forall q :: 0 <= q < |outs| ==> outs'[q].bidirectional == (outs[q].bidirectional || Close(dist, c, outs[q]))
  {
    c', outs' := c, outs;
    for o := 0 to |outs|
      invariant c'.(bidirectional := false) == c.(bidirectional := false) && SameClusters(outs, outs')
      invariant c'.bidirectional == (c.bidirectional || exists p :: 0 <= p < o && Close(dist, c, outs[p]))
      invariant forall q :: 0 <= q < |outs| ==> outs'[q].bidirectional == (outs[q].bidirectional || (q < o && Close(dist, c, outs[q])))
    {
      if Close(dist, c', outs'[o]) {
        c' := c'.(bidirectional := true);
        outs' := outs'[o := outs'[o].(bidirectional := true)];
      }
    }
  }

  /** The pass over one band: every inbound cluster of zone `iz` against
      every outbound cluster of zone `ou`; a close pair flags both. */
  method MarkPair(zones: seq<Zone>, dist: Distance, iz: nat, ou: nat) returns (zs: seq<Zone>)
    requires iz < |zones| && ou < |zones| && iz != ou
    ensures SameZones(zones, zs)
    ensures forall m, c :: 0 <= m < |zs| && 0 <= c < |zs[m].clusters| ==>
      zs[m].clusters[c].bidirectional == (zones[m].clusters[c].bidirectional || PairMarks(zones, dist, iz, ou, m, c))
  {
    var ins, outs := zones[iz].clusters, zones[ou].clusters;
    ghost var ins0, outs0 := ins, outs;
    for i := 0 to |ins|
      invariant SameClusters(ins0, ins) && SameClusters(outs0, outs)
      invariant forall k :: 0 <= k < |ins| ==>
        ins[k].bidirectional == (ins0[k].bidirectional || (k < i && exists o :: 0 <= o < |outs0| && Close(dist, ins0[k], outs0[o])))
      invariant forall q :: 0 <= q < |outs| ==>
        outs[q].bidirectional == (outs0[q].bidirectional || exists k :: 0 <= k < i && Close(dist, ins0[k], outs0[q]))
    {
      ghost var before := outs;
      var c, os := MarkAgainst(dist, ins[i], outs);
      assert forall o :: 0 <= o < |outs| ==> (Close(dist, ins[i], outs[o]) <==> Close(dist, ins0[i], outs0[o]));
      ins, outs := ins[i := c], os;
    }
    zs := zones[iz := zones[iz].(clusters := ins)][ou := zones[ou].(clusters := outs)];
  }

  /** The bidirectional pass: for each band of the table, the first inbound
      and the first outbound zone of that band, when both exist, are paired. */
  method MarkBidirectional(zones: seq<Zone>, dist: Distance) returns (zs: seq<Zone>)
    ensures SameZones(zones, zs)
    ensures forall m, c :: 0 <= m < |zs| && 0 <= c < |zs[m].clusters| ==>
      zs[m].clusters[c].bidirectional ==
        (zones[m].clusters[c].bidirectional || exists b :: 0 <= b < |BANDS| && MarkedFor(zones, dist, BANDS[b].name, m, c))
  {
    zs := zones;
    for b := 0 to |BANDS|
      invariant FlaggedUpTo(zones, zs, dist, b)
    {
      var name := BANDS[b].name;
      var iz := FindZone(zs, name, Inbound);
      var ou := FindZone(zs, name, Outbound);
      if iz < |zs| && ou < |zs| {
        var zs' := MarkPair(zs, dist, iz, ou);
        FlaggedPaired(zones, zs, zs', dist, b);
        zs := zs';
      } else {
        FlaggedUnpaired(zones, zs, dist, b);
      }
    }
  }

  /** MarkBidirectional's loop facts once the bands before `b` are done. */
  ghost predicate FlaggedUpTo(zones: seq<Zone>, zs: seq<Zone>, dist: Distance, b: nat)
  {
    SameZones(zones, zs) &&
    forall m, c :: 0 <= m < |zs| && 0 <= c < |zs[m].clusters| ==>
      zs[m].clusters[c].bidirectional ==
        (zones[m].clusters[c].bidirectional || exists b' :: 0 <= b' < b && b' < |BANDS| && MarkedFor(zones, dist, BANDS[b'].name, m, c))
  }

  lemma {:induction false} FlaggedPaired(zones: seq<Zone>, zs: seq<Zone>, zs': seq<Zone>, dist: Distance, b: nat)
    requires b < |BANDS| && FlaggedUpTo(zones, zs, dist, b)
    requires FindZone(zs, BANDS[b].name, Inbound) < |zs| && FindZone(zs, BANDS[b].name, Outbound) < |zs|
    requires var iz, ou := FindZone(zs, BANDS[b].name, Inbound), FindZone(zs, BANDS[b].name, Outbound);
      SameZones(zs, zs') &&
      forall m, c :: 0 <= m < |zs'| && 0 <= c < |zs'[m].clusters| ==>
        zs'[m].clusters[c].bidirectional == (zs[m].clusters[c].bidirectional || PairMarks(zs, dist, iz, ou, m, c))
    ensures FlaggedUpTo(zones, zs', dist, b + 1)
  {
    var name := BANDS[b].name;
    var iz, ou := FindZone(zs, name, Inbound), FindZone(zs, name, Outbound);
    FindZoneSame(zones, zs, name, Inbound);
    FindZoneSame(zones, zs, name, Outbound);
    SameZonesTrans(zones, zs, zs');
    forall m, c | 0 <= m < |zs'| && 0 <= c < |zs'[m].clusters|
      ensures zs'[m].clusters[c].bidirectional ==
        (zones[m].clusters[c].bidirectional || exists b' :: 0 <= b' < b + 1 && b' < |BANDS| && MarkedFor(zones, dist, BANDS[b'].name, m, c))
    {
      PairMarksSame(zones, zs, dist, iz, ou, m, c);
      MarkedUpToNext(zones, dist, b, m, c);
    }
  }

  /** The bands before `b + 1` are those before `b` and band `b`. */
  lemma MarkedUpToNext(zones: seq<Zone>, dist: Distance, b: nat, m: nat, c: nat)
    requires b < |BANDS| && m < |zones| && c < |zones[m].clusters|
    ensures (exists b' :: 0 <= b' < b + 1 && b' < |BANDS| && MarkedFor(zones, dist, BANDS[b'].name, m, c)) <==>
            (exists b' :: 0 <= b' < b && b' < |BANDS| && MarkedFor(zones, dist, BANDS[b'].name, m, c)) ||
            MarkedFor(zones, dist, BANDS[b].name, m, c)
  {
  }

  lemma {:induction false} FlaggedUnpaired(zones: seq<Zone>, zs: seq<Zone>, dist: Distance, b: nat)
    requires b < |BANDS| && FlaggedUpTo(zones, zs, dist, b)
    requires FindZone(zs, BANDS[b].name, Inbound) == |zs| || FindZone(zs, BANDS[b].name, Outbound) == |zs|
    ensures FlaggedUpTo(zones, zs, dist, b + 1)
  {
    var name := BANDS[b].name;
    FindZoneSame(zones, zs, name, Inbound);
    FindZoneSame(zones, zs, name, Outbound);
    forall m, c | 0 <= m < |zs| && 0 <= c < |zs[m].clusters|
      ensures zs[m].clusters[c].bidirectional ==
        (zones[m].clusters[c].bidirectional || exists b' :: 0 <= b' < b + 1 && b' < |BANDS| && MarkedFor(zones, dist, BANDS[b'].name, m, c))
    {
      assert !MarkedFor(zones, dist, name, m, c);
    }
  }

  lemma {:induction false} SameZonesTrans(a: seq<Zone>, b: seq<Zone>, c: seq<Zone>)
    requires SameZones(a, b) && SameZones(b, c)
    ensures SameZones(a, c)
  {
    forall m | 0 <= m < |a|
      ensures SameClusters(a[m].clusters, c[m].clusters)
    {
      assert SameClusters(a[m].clusters, b[m].clusters) && SameClusters(b[m].clusters, c[m].clusters);
    }
  }

  lemma {:induction false} FindZoneSame(zones: seq<Zone>, zs: seq<Zone>, name: string, dir: Direction)
    requires SameZones(zones, zs)
    ensures FindZone(zones, name, dir) == FindZone(zs, name, dir)
  {
  }

  lemma {:induction false} PairMarksSame(zones: seq<Zone>, zs: seq<Zone>, dist: Distance, iz: nat, ou: nat, m: nat, c: nat)
    requires SameZones(zones, zs)
    requires iz < |zones| && ou < |zones| && m < |zones| && c < |zones[m].clusters|
    ensures PairMarks(zones, dist, iz, ou, m, c) == PairMarks(zs, dist, iz, ou, m, c)
  {
    assert SameClusters(zones[iz].clusters, zs[iz].clusters);
    assert SameClusters(zones[ou].clusters, zs[ou].clusters);
  }

  /** Cluster `c` of zone `m` has a partner: a cluster of a zone of the same
      band and the opposite direction whose centre is close to its own. */
  ghost predicate Partnered(zones: seq<Zone>, dist: Distance, m: nat, c: nat)
    requires m < |zones| && c < |zones[m].clusters|
  {
    exists n, d :: 0 <= n < |zones| && 0 <= d < |zones[n].clusters| &&
      zones[n].band.name == zones[m].band.name && zones[n].direction != zones[m].direction &&
      (if zones[m].direction == Inbound then Close(dist, zones[m].clusters[c], zones[n].clusters[d])
       else Close(dist, zones[n].clusters[d], zones[m].clusters[c]))
  }

  /** With one zone per band and direction and every zone's band in the
      table, the pass flags exactly the clusters that have a partner. */
  lemma MarkedIffPartnered(zones: seq<Zone>, dist: Distance, m: nat, c: nat)
    requires forall n, p :: 0 <= n < p < |zones| ==> ZoneKey(zones[n]) != ZoneKey(zones[p])
    requires forall n :: 0 <= n < |zones| ==> zones[n].band in BANDS
    requires m < |zones| && c < |zones[m].clusters|
    ensures (exists b :: 0 <= b < |BANDS| && MarkedFor(zones, dist, BANDS[b].name, m, c)) <==> Partnered(zones, dist, m, c)
  {
    if Partnered(zones, dist, m, c) {
      PartneredMarked(zones, dist, m, c);
    }
    if exists b :: 0 <= b < |BANDS| && MarkedFor(zones, dist, BANDS[b].name, m, c) {
      var b :| 0 <= b < |BANDS| && MarkedFor(zones, dist, BANDS[b].name, m, c);
      MarkedPartnered(zones, dist, BANDS[b].name, m, c);
    }
  }

  lemma {:induction false} PartneredMarked(zones: seq<Zone>, dist: Distance, m: nat, c: nat)
    requires forall n, p :: 0 <= n < p < |zones| ==> ZoneKey(zones[n]) != ZoneKey(zones[p])
    requires forall n :: 0 <= n < |zones| ==> zones[n].band in BANDS
    requires m < |zones| && c < |zones[m].clusters| && Partnered(zones, dist, m, c)
    ensures exists b :: 0 <= b < |BANDS| && MarkedFor(zones, dist, BANDS[b].name, m, c)
  {
    PartneredMarkedOwnBand(zones, dist, m, c);
    var b := BandIndex(zones[m].band);
    assert BANDS[b].name == zones[m].band.name;
  }

  /** A cluster with a partner is flagged by the pass for its own band. */
  lemma {:induction false} PartneredMarkedOwnBand(zones: seq<Zone>, dist: Distance, m: nat, c: nat)
    requires forall n, p :: 0 <= n < p < |zones| ==> ZoneKey(zones[n]) != ZoneKey(zones[p])
    requires m < |zones| && c < |zones[m].clusters| && Partnered(zones, dist, m, c)
    ensures MarkedFor(zones, dist, zones[m].band.name, m, c)
  {
    var name := zones[m].band.name;
    var n, d :| 0 <= n < |zones| && 0 <= d < |zones[n].clusters| &&
      zones[n].band.name == name && zones[n].direction != zones[m].direction &&
      (if zones[m].direction == Inbound then Close(dist, zones[m].clusters[c], zones[n].clusters[d])
       else Close(dist, zones[n].clusters[d], zones[m].clusters[c]));
    FindZoneUnique(zones, m);
    FindZoneUnique(zones, n);
    if zones[m].direction == Inbound {
      assert zones[n].direction == Outbound;
      assert FindZone(zones, name, Inbound) == m && FindZone(zones, name, Outbound) == n;
      assert Close(dist, zones[m].clusters[c], zones[n].clusters[d]);
      assert PairMarks(zones, dist, m, n, m, c);
    } else {
      assert zones[n].direction == Inbound;
      assert FindZone(zones, name, Inbound) == n && FindZone(zones, name, Outbound) == m;
      assert Close(dist, zones[n].clusters[d], zones[m].clusters[c]);
      assert PairMarks(zones, dist, n, m, m, c);
    }
  }

  lemma {:induction false} MarkedPartnered(zones: seq<Zone>, dist: Distance, name: string, m: nat, c: nat)
    requires m < |zones| && c < |zones[m].clusters| && MarkedFor(zones, dist, name, m, c)
    ensures Partnered(zones, dist, m, c)
  {
    var iz := FindZone(zones, name, Inbound);
    var ou := FindZone(zones, name, Outbound);
    if m == iz {
      var o :| 0 <= o < |zones[ou].clusters| && Close(dist, zones[iz].clusters[c], zones[ou].clusters[o]);
      assert zones[ou].band.name == zones[m].band.name;
    } else {
      var i :| 0 <= i < |zones[iz].clusters| && Close(dist, zones[iz].clusters[i], zones[ou].clusters[c]);
      assert zones[iz].band.name == zones[m].band.name;
    }
  }

  /** A band of the table sits at some index of it. */
  lemma BandIndex(band: Band) returns (b: nat)
    requires band in BANDS
    ensures b < |BANDS| && BANDS[b] == band
  {
    b :| 0 <= b < |BANDS| && BANDS[b] == band;
  }

  /** With one zone per band and direction, a zone is the one found for its key. */
  lemma {:induction false} FindZoneUnique(zones: seq<Zone>, m: nat)
    requires forall n, p :: 0 <= n < p < |zones| ==> ZoneKey(zones[n]) != ZoneKey(zones[p])
    requires m < |zones|
    ensures FindZone(zones, zones[m].band.name, zones[m].direction) == m
  {
  }

  /** The zones of the classified spots `ds`: one per key, in the order the
      keys first appear; each counts the points of its key, summed over its
      clusters; every cluster is summarised; and a cluster is flagged
      bidirectional exactly when it has a partner. */
  ghost predicate ZonesOf(ds: seq<Directed>, dist: Distance, zones: seq<Zone>)
  {
    var keys := Distinct(Keys(ds));
    |zones| == |keys| &&
    (forall m :: 0 <= m < |zones| ==> ZoneKey(zones[m]) == keys[m]) &&
    (forall n, p :: 0 <= n < p < |zones| ==> ZoneKey(zones[n]) != ZoneKey(zones[p])) &&
    (forall m :: 0 <= m < |zones| ==> zones[m].band in BANDS) &&
    (forall m :: 0 <= m < |zones| ==>
      zones[m].totalSpots == |PointsWith(ds, ZoneKey(zones[m]))| && SumCounts(zones[m].clusters) == zones[m].totalSpots) &&
    (forall m, c :: 0 <= m < |zones| && 0 <= c < |zones[m].clusters| ==> Summarises(zones[m].clusters[c])) &&
    (forall m, c :: 0 <= m < |zones| && 0 <= c < |zones[m].clusters| ==>
      (zones[m].clusters[c].bidirectional <==> Partnered(zones, dist, m, c)))
  }

  /** The zone engine: the spots grouped by band and direction, each group
      clustered and summarised, then the bidirectional pass. */
  method BuildPropagationZones(cache: map<string, CacheEntry>, dist: Distance, obs: Observer, spots: seq<Spot>)
    returns (zones: seq<Zone>)
    ensures ZonesOf(ClassifyAll(cache, dist, obs, spots), dist, zones)
  {
    var order, groups := GroupSpots(cache, dist, obs, spots);
    var built := BuildZones(order, groups, dist);
    zones := MarkBidirectional(built, dist);
    ZonesOfGroups(ClassifyAll(cache, dist, obs, spots), dist, order, groups, built, zones);
  }

  /** The zone of each group, in key order, before the bidirectional pass. */
  method BuildZones(order: seq<GroupKey>, groups: map<GroupKey, Group>, dist: Distance) returns (built: seq<Zone>)
    requires forall k :: k in order ==> k in groups
    ensures |built| == |order| && forall m :: 0 <= m < |order| ==> ZoneOfGroup(built[m], groups[order[m]])
    ensures forall m, c :: 0 <= m < |built| && 0 <= c < |built[m].clusters| ==> !built[m].clusters[c].bidirectional
  {
    built := [];
    for j := 0 to |order|
      invariant |built| == j
      invariant forall m :: 0 <= m < j ==> ZoneOfGroup(built[m], groups[order[m]])
      invariant forall m, c :: 0 <= m < j && 0 <= c < |built[m].clusters| ==> !built[m].clusters[c].bidirectional
    {
      var z, _ := BuildZone(groups[order[j]], dist);
      built := built + [z];
    }
  }

  lemma {:induction false} ZonesOfGroups(ds: seq<Directed>, dist: Distance, order: seq<GroupKey>, groups: map<GroupKey, Group>,
                                         built: seq<Zone>, zones: seq<Zone>)
    requires Grouped(ds, order, groups)
    requires |built| == |order| && forall m :: 0 <= m < |order| ==> ZoneOfGroup(built[m], groups[order[m]])
    requires forall m, c :: 0 <= m < |built| && 0 <= c < |built[m].clusters| ==> !built[m].clusters[c].bidirectional
    requires SameZones(built, zones)
    requires forall m, c :: 0 <= m < |zones| && 0 <= c < |zones[m].clusters| ==>
      zones[m].clusters[c].bidirectional ==
        (built[m].clusters[c].bidirectional || exists b :: 0 <= b < |BANDS| && MarkedFor(built, dist, BANDS[b].name, m, c))
    ensures ZonesOf(ds, dist, zones)
  {
    ZonesAgree(ds, order, groups, built, zones);
    assert forall n, p :: 0 <= n < p < |order| ==> order[n] != order[p];
    ZonesFlagged(dist, built, zones);
  }

  /** Zones that differ from those built for the groups only in their flags
      agree with the groups. */
  lemma {:induction false} ZonesAgree(ds: seq<Directed>, order: seq<GroupKey>, groups: map<GroupKey, Group>,
                                      built: seq<Zone>, zones: seq<Zone>)
    requires Grouped(ds, order, groups)
    requires |built| == |order| && forall m :: 0 <= m < |order| ==> ZoneOfGroup(built[m], groups[order[m]])
    requires SameZones(built, zones)
    ensures forall m :: 0 <= m < |zones| ==>
      ZoneKey(zones[m]) == order[m] && ZoneKey(built[m]) == order[m] && zones[m].band in BANDS &&
      zones[m].totalSpots == |PointsWith(ds, ZoneKey(zones[m]))| && SumCounts(zones[m].clusters) == zones[m].totalSpots &&
      forall c :: 0 <= c < |zones[m].clusters| ==> Summarises(zones[m].clusters[c])
  {
    forall m | 0 <= m < |zones|
      ensures ZoneKey(zones[m]) == order[m] && ZoneKey(built[m]) == order[m] && zones[m].band in BANDS
      ensures zones[m].totalSpots == |PointsWith(ds, ZoneKey(zones[m]))| && SumCounts(zones[m].clusters) == zones[m].totalSpots
      ensures forall c :: 0 <= c < |zones[m].clusters| ==> Summarises(zones[m].clusters[c])
    {
      assert GroupOf(groups[order[m]], ds, order[m]);
      ZoneFromBuilt(ds, order[m], groups[order[m]], built[m], zones[m]);
    }
  }

  /** After the pass, a cluster is flagged exactly when it has a partner. */
  lemma {:induction false} ZonesFlagged(dist: Distance, built: seq<Zone>, zones: seq<Zone>)
    requires forall n, p :: 0 <= n < p < |built| ==> ZoneKey(built[n]) != ZoneKey(built[p])
    requires forall n :: 0 <= n < |built| ==> built[n].band in BANDS
    requires forall m, c :: 0 <= m < |built| && 0 <= c < |built[m].clusters| ==> !built[m].clusters[c].bidirectional
    requires SameZones(built, zones)
    requires forall m, c :: 0 <= m < |zones| && 0 <= c < |zones[m].clusters| ==>
      zones[m].clusters[c].bidirectional ==
        (built[m].clusters[c].bidirectional || exists b :: 0 <= b < |BANDS| && MarkedFor(built, dist, BANDS[b].name, m, c))
    ensures forall m, c :: 0 <= m < |zones| && 0 <= c < |zones[m].clusters| ==>
      (zones[m].clusters[c].bidirectional <==> Partnered(zones, dist, m, c))
  {
    forall m, c | 0 <= m < |zones| && 0 <= c < |zones[m].clusters|
      ensures zones[m].clusters[c].bidirectional <==> Partnered(zones, dist, m, c)
    {
      MarkedIffPartnered(built, dist, m, c);
      PartneredSame(built, zones, dist, m, c);
    }
  }

  /** A zone whose clusters differ from those built for a group only in
      their flags agrees with the group. */
  lemma ZoneFromBuilt(ds: seq<Directed>, key: GroupKey, g: Group, b: Zone, z: Zone)
    requires GroupOf(g, ds, key) && ZoneOfGroup(b, g)
    requires z.(clusters := []) == b.(clusters := []) && SameClusters(b.clusters, z.clusters)
    ensures ZoneKey(z) == key && ZoneKey(b) == key && z.band in BANDS
    ensures z.totalSpots == |PointsWith(ds, ZoneKey(z))| && SumCounts(z.clusters) == z.totalSpots
    ensures forall c :: 0 <= c < |z.clusters| ==> Summarises(z.clusters[c])
  {
    SumCountsSame(b.clusters, z.clusters);
    forall c | 0 <= c < |z.clusters|
      ensures Summarises(z.clusters[c])
    {
      assert b.clusters[c] in b.clusters;
      assert z.clusters[c].(bidirectional := false) == b.clusters[c].(bidirectional := false);
    }
  }

  lemma {:induction false} SumCountsSame(a: seq<ZoneCluster>, b: seq<ZoneCluster>)
    requires SameClusters(a, b)
    ensures SumCounts(a) == SumCounts(b)
  {
    if a != [] {
      assert a[|a| - 1].(bidirectional := false) == b[|b| - 1].(bidirectional := false);
      SumCountsSame(a[..|a| - 1], b[..|b| - 1]);
    }
  }

  lemma {:induction false} PartneredSame(zones: seq<Zone>, zs: seq<Zone>, dist: Distance, m: nat, c: nat)
    requires SameZones(zones, zs) && m < |zones| && c < |zones[m].clusters|
    ensures Partnered(zones, dist, m, c) == Partnered(zs, dist, m, c)
  {
    assert forall n, d :: 0 <= n < |zones| && 0 <= d < |zones[n].clusters| ==>
      zones[n].clusters[d].centroid == zs[n].clusters[d].centroid;
  }

  /** Some cluster centre lies within ZONE_KM of the station. */
  function NearCluster(dist: Distance, station: Coord, cs: seq<ZoneCluster>): (r: bool)
    ensures r <==> exists c :: 0 <= c < |cs| && dist(station, cs[c].centroid) <= ZONE_KM
  {
    if cs == [] then false
    else NearCluster(dist, station, cs[..|cs| - 1]) || dist(station, cs[|cs| - 1].centroid) <= ZONE_KM
  }

  /** Zone membership: the station lies within ZONE_KM of the centre of
      some cluster of some zone of the band. */
  function IsStationInZone(dist: Distance, station: Coord, zones: seq<Zone>, bandName: string): (r: bool)
    ensures r <==> exists m, c :: 0 <= m < |zones| && zones[m].band.name == bandName &&
                                  0 <= c < |zones[m].clusters| && dist(station, zones[m].clusters[c].centroid) <= ZONE_KM
  {
    if zones == [] then false
    else
      var last := zones[|zones| - 1];
      var prev := IsStationInZone(dist, station, zones[..|zones| - 1], bandName);
      assert forall m :: 0 <= m < |zones| - 1 ==> zones[..|zones| - 1][m] == zones[m];
      prev || (last.band.name == bandName && NearCluster(dist, station, last.clusters))
  }

  /** The point a spot is placed at for the proximity filter: its own
      locator if it has one, else its spotter's, else none. */
  function ProximityCoords(s: Spot): (r: Option<Coord>)
    ensures Truthy(s.grid) ==> r == GridToLatLon(s.grid)
    ensures !Truthy(s.grid) && Truthy(s.spotterGrid) ==> r == GridToLatLon(s.spotterGrid)
    ensures !Truthy(s.grid) && !Truthy(s.spotterGrid) ==> r.None?
  {
    if Truthy(s.grid) then GridToLatLon(s.grid)
    else if Truthy(s.spotterGrid) then GridToLatLon(s.spotterGrid)
    else None
  }

  predicate NearRef(dist: Distance, ref: Coord, radiusKm: real, s: Spot)
  {
    var p := ProximityCoords(s);
    p.Some? && dist(ref, p.value) <= radiusKm
  }

  /** The test of the proximity filter. */
  function Near(dist: Distance, ref: Coord, radiusKm: real): Spot -> bool
  {
    s => NearRef(dist, ref, radiusKm, s)
  }

  /** The spots placed within the radius of the reference point: the
      `filter` of the spots by that test, in order and with every copy. */
  function FilterByProximity(dist: Distance, spots: seq<Spot>, ref: Coord, radiusKm: real): (r: seq<Spot>)
    ensures forall s :: s in r ==> NearRef(dist, ref, radiusKm, s)
    ensures forall s :: s in spots && NearRef(dist, ref, radiusKm, s) ==> s in r
    ensures multiset(r) <= multiset(spots)
    ensures r == Filter(Near(dist, ref, radiusKm), spots)
  {
    if spots == [] then []
    else
      var prev := FilterByProximity(dist, spots[..|spots| - 1], ref, radiusKm);
      var s := spots[|spots| - 1];
      assert spots == spots[..|spots| - 1] + [s];
      if NearRef(dist, ref, radiusKm, s) then prev + [s] else prev
  }

  /** The test of the cluster filter: the best SNR reaches `minSnr`. */
  function Strong(minSnr: int): ZoneCluster -> bool
  {
    (c: ZoneCluster) => c.bestSnr >= minSnr
  }

  /** The clusters whose best SNR reaches `minSnr`: the `filter` of the
      clusters by that test, in order and with every copy. */
  function StrongClusters(cs: seq<ZoneCluster>, minSnr: int): (r: seq<ZoneCluster>)
    ensures forall c :: c in r <==> c in cs && c.bestSnr >= minSnr
    ensures |r| <= |cs|
    ensures r == Filter(Strong(minSnr), cs)
  {
    if cs == [] then []
    else
      var prev := StrongClusters(cs[..|cs| - 1], minSnr);
      var c := cs[|cs| - 1];
      assert cs == cs[..|cs| - 1] + [c];
      if c.bestSnr >= minSnr then prev + [c] else prev
  }

  /** A zone with its weak clusters removed. */
  function Strengthened(minSnr: int): Zone -> Zone
  {
    (z: Zone) => z.(clusters := StrongClusters(z.clusters, minSnr))
  }

  /** The test of the zone filter: some cluster is left. */
  function HasClusters(z: Zone): bool
  {
    |z.clusters| > 0
  }

  /** Each zone with its weak clusters removed, dropping zones left empty:
      `KeepStrongInOrder` gives the order. */
  function KeepStrong(zones: seq<Zone>, minSnr: int): (r: seq<Zone>)
    ensures forall z :: z in r ==> |z.clusters| > 0 && forall c :: c in z.clusters ==> c.bestSnr >= minSnr
    ensures forall z :: z in r <==> exists y :: y in zones && |StrongClusters(y.clusters, minSnr)| > 0 &&
                                                z == y.(clusters := StrongClusters(y.clusters, minSnr))
  {
    if zones == [] then []
    else
      var prev := KeepStrong(zones[..|zones| - 1], minSnr);
      var y := zones[|zones| - 1];
      assert zones == zones[..|zones| - 1] + [y];
      var kept := StrongClusters(y.clusters, minSnr);
      if |kept| > 0 then prev + [y.(clusters := kept)] else prev
  }

  /** The zone filter is the `map` then `filter` of the source: the zones
      keep their order, and each is kept exactly when a cluster is left. */
  lemma {:induction false} KeepStrongInOrder(zones: seq<Zone>, minSnr: int)
    ensures KeepStrong(zones, minSnr) == Filter(HasClusters, Mapped(Strengthened(minSnr), zones))
  {
    if zones != [] {
      var init, y := zones[..|zones| - 1], zones[|zones| - 1];
      var f := Strengthened(minSnr);
      KeepStrongInOrder(init, minSnr);
      MappedLast(f, zones);
      FilterSnoc(HasClusters, Mapped(f, init), f(y));
    }
  }

  /** The minimum-SNR zone filter: a threshold of zero or less keeps the
      zones as they are. */
  function FilterZonesBySnr(zones: seq<Zone>, minSnr: int): (r: seq<Zone>)
    ensures minSnr <= 0 ==> r == zones
    ensures minSnr > 0 ==> forall z :: z in r ==> |z.clusters| > 0 && forall c :: c in z.clusters ==> c.bestSnr >= minSnr
    ensures minSnr > 0 ==> forall z :: z in zones && (exists c :: c in z.clusters && c.bestSnr >= minSnr) ==>
                             z.(clusters := StrongClusters(z.clusters, minSnr)) in r
    ensures minSnr > 0 ==> r == Filter(HasClusters, Mapped(Strengthened(minSnr), zones))
  {
    KeepStrongInOrder(zones, minSnr);
    if minSnr <= 0 then zones else KeepStrong(zones, minSnr)
  }
}
