/** The station list: for each transmitter heard, its locator, position,
    region and distance, the verdict and explanation for each band it was
    heard on, its best band and SNR, and its overall status. */
module Stations {
  import opened Common
  import opened Geo
  import opened Bands
  import opened HamDb
  import opened Callsigns
  import opened Spots
  import opened Antennas
  import opened Solar
  import opened Workability
  import opened Propagation
  import opened SpotGroups
  import opened BandAnalysis

  /** What the station list is computed from besides the spots: the
      locator cache, the distance function (km), the proximity radius (km),
      the propagation zones, the antenna settings, the solar report and
      whether it is day at the user's location. */
  datatype Inputs = Inputs(cache: map<string, CacheEntry>, dist: Distance, radiusKm: real, zones: seq<Zone>,
                           antennas: Settings, solar: Option<SolarData>, isDaytime: bool)

  /** How the spots are judged for a user at `user`. */
  function LookupsOf(inp: Inputs, user: Coord): (l: Lookups)
    ensures l.radiusKm == inp.radiusKm
  {
    Judged(inp.cache, inp.dist, user, inp.radiusKm)
  }

  /** The explanation of a band's verdict: the headline and the factor lines. */
  datatype Explanation = Explanation(primary: Primary, factors: seq<Factor>)

  /** Everything shown for one band of one station. */
  datatype BandResult = BandResult(accum: BandAccum, inZone: bool, verdict: Verdict, explanation: Option<Explanation>)

  /** One band of a station at `coords`, `distance` km from the user: in a
      zone of that band or not, relevant when heard nearby or in a zone,
      classified with the band's antenna and band condition; the
      explanation is built only for a band with an antenna. */
  function Assess(inp: Inputs, coords: Coord, distance: real, a: BandAccum): (r: BandResult)
    ensures r.accum == a
    ensures r.inZone <==> exists m, c :: 0 <= m < |inp.zones| && inp.zones[m].band.name == a.band.name &&
                                         0 <= c < |inp.zones[m].clusters| && inp.dist(coords, inp.zones[m].clusters[c].centroid) <= ZONE_KM
    ensures r.verdict.status == Unavailable <==> AntennaFor(inp.antennas, a.band.name) == NO_ANTENNA
    ensures r.explanation.Some? <==> r.verdict.status != Unavailable
    ensures r.verdict.status == Should ==> (a.hasNearbySpot || r.inZone) && a.bestSnr >= 10
    ensures r.verdict.status == Might ==> (a.hasNearbySpot || r.inZone) && a.bestSnr > 5
    ensures r.verdict == ClassifyBand(a.band, AntennaFor(inp.antennas, a.band.name), distance, a.hasNearbySpot || r.inZone,
                                      a.bestSnr, GetBandCondition(inp.solar, a.band.name, inp.isDaytime))
    ensures r.explanation.Some? ==>
      var facts := BandFacts(a.bestSnr, a.hasNearbySpot, a.nearbyCall, r.inZone, r.verdict);
      r.explanation.value == Explanation(PrimaryReason(facts), Factors(facts))
  {
    var inZone := IsStationInZone(inp.dist, coords, inp.zones, a.band.name);
    var antenna := AntennaFor(inp.antennas, a.band.name);
    var condition := GetBandCondition(inp.solar, a.band.name, inp.isDaytime);
    var verdict := ClassifyBand(a.band, antenna, distance, a.hasNearbySpot || inZone, a.bestSnr, condition);
    var facts := BandFacts(a.bestSnr, a.hasNearbySpot, a.nearbyCall, inZone, verdict);
    BandResult(a, inZone, verdict,
               if verdict.noAntenna then None else Some(Explanation(PrimaryReason(facts), Factors(facts))))
  }

  /** The station's best SNR so far and the band it was reported on. */
  datatype Best = Best(snr: int, band: Option<Band>)

  /** The best SNR over the bands in `names`, in that order: a band takes
      over only with a strictly higher SNR than the best so far, starting
      from NO_SNR and no band. */
  function BestOf(names: seq<string>, analysis: map<string, BandAccum>): (b: Best)
    requires forall n :: n in names ==> n in analysis
    ensures b.snr >= NO_SNR && (b.band.None? <==> b.snr == NO_SNR)
  {
    if names == [] then Best(NO_SNR, None)
    else
      var prev := BestOf(names[..|names| - 1], analysis);
      var a := analysis[names[|names| - 1]];
      if a.bestSnr > prev.snr then Best(a.bestSnr, Some(a.band)) else prev
  }

  /** The best SNR is the largest over the bands, or NO_SNR; a band is
      recorded exactly when it is above NO_SNR, and it is the first band to
      reach it. */
  lemma {:induction false} BestIsFirstMax(names: seq<string>, analysis: map<string, BandAccum>)
    requires forall n :: n in names ==> n in analysis
    ensures var b := BestOf(names, analysis);
      b.snr >= NO_SNR &&
      (forall i :: 0 <= i < |names| ==> analysis[names[i]].bestSnr <= b.snr) &&
      (b.band.None? <==> b.snr == NO_SNR) &&
      (b.band.Some? ==> exists i :: 0 <= i < |names| && analysis[names[i]].band == b.band.value &&
                                    analysis[names[i]].bestSnr == b.snr &&
                                    forall j :: 0 <= j < i ==> analysis[names[j]].bestSnr < b.snr)
  {
    if names != [] {
      var init := names[..|names| - 1];
      assert forall i :: 0 <= i < |init| ==> init[i] == names[i];
      BestIsFirstMax(init, analysis);
    }
  }

  /** `status`: should if some band is should, else might if some band is
      might, else unlikely. */
  function OverallStatus(statuses: seq<Status>): (r: Status)
    ensures r != Unavailable
    ensures r == Should <==> Should in statuses
    ensures r == Might <==> Should !in statuses && Might in statuses
  {
    if Should in statuses then Should else if Might in statuses then Might else Unlikely
  }

  /** The overall status is the best of the bands' statuses, and is
      unlikely when every band is unavailable or there is none. */
  lemma OverallIsBest(statuses: seq<Status>)
    ensures forall i :: 0 <= i < |statuses| && statuses[i] != Unavailable ==> Rank(statuses[i]) <= Rank(OverallStatus(statuses))
    ensures OverallStatus(statuses) == Unlikely || OverallStatus(statuses) in statuses
  {
  }

  /** The statuses of the bands in `names`, in that order. */
  function StatusesOf(names: seq<string>, results: map<string, BandResult>): (r: seq<Status>)
    requires forall n :: n in names ==> n in results
    ensures |r| == |names| && forall i :: 0 <= i < |names| ==> r[i] == results[names[i]].verdict.status
  {
    seq(|names|, i requires 0 <= i < |names| => results[names[i]].verdict.status)
  }

  /** One entry of the station list. */
  datatype Station = Station(call: string, grid: string, coords: Coord, region: string, distance: int,
                             status: Status, bandOrder: seq<string>, bands: map<string, BandResult>,
                             bestBand: Option<Band>, bestSnr: int, spotCount: nat)

  /** The locator a station is placed by: that of its first spot, else the
      one its callsign resolves to. A locator carried by the first spot
      always wins over the callsign lookup. */
  function StationGrid(inp: Inputs, call: string, callSpots: seq<Spot>): (r: Option<string>)
    ensures |callSpots| > 0 && (Truthy(callSpots[0].grid) || Truthy(callSpots[0].dxGrid)) ==>
              Truthy(r) && (r == callSpots[0].grid || r == callSpots[0].dxGrid)
    ensures (|callSpots| == 0 || (!Truthy(callSpots[0].grid) && !Truthy(callSpots[0].dxGrid))) ==>
              r == GetGridFromCall(inp.cache, Some(call))
  {
    var spotGrid := if |callSpots| > 0 then Or(callSpots[0].grid, callSpots[0].dxGrid) else None;
    Or(spotGrid, GetGridFromCall(inp.cache, Some(call)))
  }

  /** Only the first spot of a station places it; and a station whose
      first spot carries no locator and whose callsign is not in the
      locator cache is placed exactly when the prefix table knows it. */
  lemma StationPlacement(inp: Inputs, call: string, callSpots: seq<Spot>)
    requires |callSpots| > 0
    ensures StationGrid(inp, call, callSpots) == StationGrid(inp, call, callSpots[..1])
    ensures call != "" && !Truthy(callSpots[0].grid) && !Truthy(callSpots[0].dxGrid) &&
            CachedGrid(inp.cache, Some(Normalize(call))).None? ==>
              (Placed(inp, call, callSpots) <==> GetGridFromCall(inp.cache, Some(call)).Some?)
  {
    if call != "" && CachedGrid(inp.cache, Some(Normalize(call))).None? {
      GridFromCallDecodes(inp.cache, Some(call));
    }
  }

  /** The results of every band in `names`. */
  function ResultsOf(inp: Inputs, coords: Coord, distance: real, names: seq<string>, analysis: map<string, BandAccum>)
    : (r: map<string, BandResult>)
    requires forall n :: n in names ==> n in analysis
    ensures forall n :: n in r <==> n in names
    ensures forall n :: n in r ==> r[n] == Assess(inp, coords, distance, analysis[n])
  {
    map n | n in names :: Assess(inp, coords, distance, analysis[n])
  }

  /** The bands a station at `coords` was heard on, in order of first
      appearance, each with its result: a band is listed exactly when a spot
      of the station falls in it, once, and its result carries that band's
      accumulation and the assessment of it. */
  function BandResults(inp: Inputs, user: Coord, coords: Coord, callSpots: seq<Spot>)
    : (r: (seq<string>, map<string, BandResult>))
    ensures NoDup(r.0)
    ensures forall n :: n in r.1 <==> n in r.0
    ensures forall n :: n in r.0 <==> exists i :: 0 <= i < |callSpots| && InBand(LookupsOf(inp, user), callSpots[i], n)
    ensures forall n :: n in r.1 ==> Analysis(LookupsOf(inp, user), callSpots, n) == Some(r.1[n].accum)
    ensures forall n :: n in r.1 ==> r.1[n] == Assess(inp, coords, inp.dist(user, coords), r.1[n].accum)
  {
    var l := LookupsOf(inp, user);
    var names := Distinct(BandNames(l, callSpots));
    assert forall n :: n in names <==> n in BandNames(l, callSpots);
    (names, ResultsOf(inp, coords, inp.dist(user, coords), names, BandMap(l, callSpots)))
  }

  /** The station of callsign `call` heard in `callSpots`, for a user at
      `user`; None when its locator does not decode. */
  function StationOf(inp: Inputs, user: Coord, call: string, callSpots: seq<Spot>): (r: Option<Station>)
    ensures r.Some? <==> GridToLatLon(StationGrid(inp, call, callSpots)).Some?
    ensures r.Some? ==> r.value.call == call && r.value.spotCount == |callSpots| && r.value.status != Unavailable
    ensures r.Some? ==> (r.value.bandOrder, r.value.bands) == BandResults(inp, user, r.value.coords, callSpots)
    ensures r.Some? ==> Some(r.value.grid) == StationGrid(inp, call, callSpots) &&
                        Some(r.value.coords) == GridToLatLon(StationGrid(inp, call, callSpots)) &&
                        r.value.region == GetRegionFromCall(Some(call))
    ensures r.Some? ==> Summarises(r.value, inp.dist(user, r.value.coords))
  {
    var grid := StationGrid(inp, call, callSpots);
    var coords := GridToLatLon(grid);
    if coords.None? then None
    else
      var l := LookupsOf(inp, user);
      var bands := BandResults(inp, user, coords.value, callSpots);
      var analysis := BandMap(l, callSpots);
      Some(MakeStation(call, grid.value, coords.value, inp.dist(user, coords.value), bands.0, analysis, bands.1,
                       BestOf(bands.0, analysis), |callSpots|))
  }

  /** What a station record says about its bands and its distance: the
      overall status is should when some band is should, else might when
      some band is might, else unlikely; the best band is the first band,
      in band order, with the greatest SNR, and its SNR the best SNR, or
      there is none and the best SNR is 0 when no band reported one; the
      distance is `distance` rounded to whole km. */
  predicate Summarises(st: Station, distance: real)
  {
    (forall n :: n in st.bandOrder ==> n in st.bands) &&
    st.status != Unavailable &&
    (st.status == Should <==> exists n :: n in st.bandOrder && st.bands[n].verdict.status == Should) &&
    (st.status == Might <==>
       (forall n :: n in st.bandOrder ==> st.bands[n].verdict.status != Should) &&
       exists n :: n in st.bandOrder && st.bands[n].verdict.status == Might) &&
    (st.bestBand.Some? ==>
       st.bestSnr > NO_SNR && (forall n :: n in st.bandOrder ==> st.bands[n].accum.bestSnr <= st.bestSnr) &&
       exists i :: 0 <= i < |st.bandOrder| && st.bands[st.bandOrder[i]].accum.band == st.bestBand.value &&
                   st.bands[st.bandOrder[i]].accum.bestSnr == st.bestSnr &&
                   forall j :: 0 <= j < i ==> st.bands[st.bandOrder[j]].accum.bestSnr < st.bestSnr) &&
    (st.bestBand.None? ==> st.bestSnr == 0 && forall n :: n in st.bandOrder ==> st.bands[n].accum.bestSnr <= NO_SNR) &&
    st.distance as real - 0.5 <= distance < st.distance as real + 0.5
  }

  /** The station record: its callsign, locator, position and region, the
      distance rounded to whole km, the overall status from the bands in
      order, and the best band and SNR, with a best SNR of 0 when no band
      reported one. */
  function MakeStation(call: string, grid: string, coords: Coord, distance: real, names: seq<string>,
                       analysis: map<string, BandAccum>, results: map<string, BandResult>, best: Best,
                       spotCount: nat): (st: Station)
    requires forall n :: n in names ==> n in analysis && n in results && results[n].accum == analysis[n]
    requires best == BestOf(names, analysis)
    ensures st.call == call && st.bandOrder == names && st.bands == results && st.spotCount == spotCount
    ensures st.grid == grid && st.coords == coords && st.region == GetRegionFromCall(Some(call))
    ensures Summarises(st, distance)
  {
    var statuses := StatusesOf(names, results);
    assert forall n :: n in names ==> exists i :: 0 <= i < |names| && names[i] == n;
    BestIsFirstMax(names, analysis);
    Station(call, grid, coords, GetRegionFromCall(Some(call)), RoundHalfUp(distance),
            OverallStatus(statuses), names, results,
            best.band, if best.snr > NO_SNR then best.snr else 0, spotCount)
  }

  /** Building one station: its placement, then the band accumulation, then
      one pass over the bands in order that classifies each and tracks the
      best SNR. */
  method ClassifyStation(inp: Inputs, user: Coord, call: string, callSpots: seq<Spot>) returns (r: Option<Station>)
    ensures r == StationOf(inp, user, call, callSpots)
  {
    var grid := StationGrid(inp, call, callSpots);
    var coords := GridToLatLon(grid);
    if coords.None? {
      return None;
    }
    var distance := inp.dist(user, coords.value);
    var names, analysis := AnalyseBands(LookupsOf(inp, user), callSpots);
    var results, best := AssessBands(inp, coords.value, distance, names, analysis);
    r := Some(MakeStation(call, grid.value, coords.value, distance, names, analysis, results, best, |callSpots|));
  }

  /** The pass over `Object.values(bandAnalysis)`. */
  method AssessBands(inp: Inputs, coords: Coord, distance: real, names: seq<string>, analysis: map<string, BandAccum>)
    returns (results: map<string, BandResult>, best: Best)
    requires forall n :: n in names ==> n in analysis
    ensures results == ResultsOf(inp, coords, distance, names, analysis)
    ensures best == BestOf(names, analysis)
  {
    results, best := map[], Best(NO_SNR, None);
    for i := 0 to |names|
      invariant results == ResultsOf(inp, coords, distance, names[..i], analysis)
      invariant best == BestOf(names[..i], analysis)
    {
      var a := analysis[names[i]];
      ResultsStep(inp, coords, distance, names, i, analysis);
      BestStep(names, i, analysis);
      results := results[names[i] := Assess(inp, coords, distance, a)];
      if a.bestSnr > best.snr {
        best := Best(a.bestSnr, Some(a.band));
      }
    }
    assert names[..|names|] == names;
  }

  /** One more band name: its result is added to the map. */
  lemma ResultsStep(inp: Inputs, coords: Coord, distance: real, names: seq<string>, i: nat, analysis: map<string, BandAccum>)
    requires i < |names| && forall n :: n in names ==> n in analysis
    ensures forall n :: n in names[..i + 1] ==> n in analysis
    ensures ResultsOf(inp, coords, distance, names[..i + 1], analysis) ==
            ResultsOf(inp, coords, distance, names[..i], analysis)[names[i] := Assess(inp, coords, distance, analysis[names[i]])]
  {
    TakeSnoc(names, i);
  }

  /** One more band name competes for the best SNR. */
  lemma BestStep(names: seq<string>, i: nat, analysis: map<string, BandAccum>)
    requires i < |names| && forall n :: n in names ==> n in analysis
    ensures forall n :: n in names[..i + 1] ==> n in analysis
    ensures var prev := BestOf(names[..i], analysis);
            var a := analysis[names[i]];
            BestOf(names[..i + 1], analysis) == if a.bestSnr > prev.snr then Best(a.bestSnr, Some(a.band)) else prev
  {
    assert names[..i + 1][..i] == names[..i];
  }

  /** The stations of the keys `calls`, in order, leaving out those that
      cannot be placed. */
  function StationList(inp: Inputs, user: Coord, spots: seq<Spot>, calls: seq<string>): (r: seq<Station>)
  {
    if calls == [] then []
    else
      var prev := StationList(inp, user, spots, calls[..|calls| - 1]);
      var c := calls[|calls| - 1];
      var st := StationOf(inp, user, c, SpotsOfCall(spots, c));
      if st.Some? then prev + [st.value] else prev
  }

  /** `stationData`: no stations without the user's position; otherwise the
      spots pass the spotter filter, are grouped by callsign, and each
      callsign, in order of first appearance, becomes a station when it can
      be placed. */
  method StationData(inp: Inputs, user: Option<Coord>, filter: seq<string>, spots: seq<Spot>) returns (r: seq<Station>)
    ensures user.None? ==> r == []
    ensures user.Some? ==>
      var fs := FilterBySpotter(filter, spots);
      r == StationList(inp, user.value, fs, Distinct(CallKeys(fs)))
  {
    if user.None? {
      return [];
    }
    var fs := FilterBySpotter(filter, spots);
    var calls, byCall := GroupByCall(fs);
    r := [];
    for i := 0 to |calls|
      invariant r == StationList(inp, user.value, fs, calls[..i])
    {
      TakeSnoc(calls, i);
      r := AddStation(inp, user.value, fs, calls[..i], calls[i], byCall[calls[i]], r);
    }
    assert calls[..|calls|] == calls;
  }

  /** The body of the loop over the callsigns: the station of one more
      callsign is appended when it can be placed. */
  method AddStation(inp: Inputs, user: Coord, ghost spots: seq<Spot>, ghost calls: seq<string>, c: string,
                    callSpots: seq<Spot>, r: seq<Station>) returns (r': seq<Station>)
    requires callSpots == SpotsOfCall(spots, c) && r == StationList(inp, user, spots, calls)
    ensures r' == StationList(inp, user, spots, calls + [c])
  {
    var st := ClassifyStation(inp, user, c, callSpots);
    r' := r;
    if st.Some? {
      r' := r + [st.value];
    }
    assert (calls + [c])[..|calls|] == calls;
  }

  /** A station can be placed when its locator decodes. */
  predicate Placed(inp: Inputs, call: string, callSpots: seq<Spot>)
  {
    GridToLatLon(StationGrid(inp, call, callSpots)).Some?
  }

  /** What the station list promises about the keys `calls`: each station
      is for one of them, carries all the spots of its callsign (at least
      one) and is never unavailable overall; no callsign is listed twice;
      and a key is listed exactly when its station can be placed. */
  ghost predicate Listed(spots: seq<Spot>, calls: seq<string>, r: seq<Station>, placed: string -> bool)
  {
    (forall k :: 0 <= k < |r| ==> r[k].call in calls && r[k].spotCount == |SpotsOfCall(spots, r[k].call)| > 0 &&
                                  r[k].status != Unavailable) &&
    (forall k, m :: 0 <= k < m < |r| ==> r[k].call != r[m].call) &&
    (forall c :: c in calls ==> ((exists k :: 0 <= k < |r| && r[k].call == c) <==> placed(c)))
  }

  /** The station list of distinct keys of the spots keeps its promises. */
  lemma {:induction false} StationListFacts(inp: Inputs, user: Coord, spots: seq<Spot>, calls: seq<string>)
    requires NoDup(calls) && forall c :: c in calls ==> c in CallKeys(spots)
    ensures Listed(spots, calls, StationList(inp, user, spots, calls), c => Placed(inp, c, SpotsOfCall(spots, c)))
  {
    if calls != [] {
      var init := calls[..|calls| - 1];
      var c := calls[|calls| - 1];
      assert calls == init + [c];
      assert forall i :: 0 <= i < |init| ==> init[i] == calls[i];
      StationListFacts(inp, user, spots, init);
      assert c !in init;
      ListedStep(spots, init, c, c => Placed(inp, c, SpotsOfCall(spots, c)), StationList(inp, user, spots, init),
                 StationOf(inp, user, c, SpotsOfCall(spots, c)), StationList(inp, user, spots, calls));
    }
  }

  /** One more key keeps the promises, whatever the station built for it. */
  lemma {:induction false} ListedStep(spots: seq<Spot>, calls: seq<string>, c: string, placed: string -> bool,
                                      r: seq<Station>, st: Option<Station>, r': seq<Station>)
    requires Listed(spots, calls, r, placed) && c !in calls && c in CallKeys(spots)
    requires st.Some? <==> placed(c)
    requires st.Some? ==> st.value.call == c && st.value.spotCount == |SpotsOfCall(spots, c)| &&
                          st.value.status != Unavailable
    requires r' == if st.Some? then r + [st.value] else r
    ensures Listed(spots, calls + [c], r', placed)
  {
    StationsHaveSpots(spots, c);
    forall k | 0 <= k < |r'|
      ensures r'[k].call in calls + [c] && r'[k].spotCount == |SpotsOfCall(spots, r'[k].call)| > 0 &&
              r'[k].status != Unavailable
    {
      if k < |r| {
        assert r'[k] == r[k];
      }
    }
    forall k, m | 0 <= k < m < |r'|
      ensures r'[k].call != r'[m].call
    {
      assert r'[k] == r[k];
      if m == |r| {
        assert r[k].call in calls;
      }
    }
    PlacedStep(spots, calls, c, placed, r, st, r');
  }

  lemma {:induction false} PlacedStep(spots: seq<Spot>, calls: seq<string>, c: string, placed: string -> bool,
                                      r: seq<Station>, st: Option<Station>, r': seq<Station>)
    requires Listed(spots, calls, r, placed) && c !in calls
    requires st.Some? <==> placed(c)
    requires st.Some? ==> st.value.call == c
    requires r' == if st.Some? then r + [st.value] else r
    ensures forall x :: x in calls + [c] ==> ((exists k :: 0 <= k < |r'| && r'[k].call == x) <==> placed(x))
  {
    forall x | x in calls + [c]
      ensures (exists k :: 0 <= k < |r'| && r'[k].call == x) <==> placed(x)
    {
      if x == c {
        if st.Some? {
          assert r'[|r|].call == c;
        } else {
          assert forall k :: 0 <= k < |r'| ==> r'[k].call in calls;
        }
      } else {
        assert x in calls;
        if exists k :: 0 <= k < |r| && r[k].call == x {
          var k :| 0 <= k < |r| && r[k].call == x;
          assert r'[k] == r[k];
        }
        if exists k :: 0 <= k < |r'| && r'[k].call == x {
          var k :| 0 <= k < |r'| && r'[k].call == x;
          assert k < |r| && r[k] == r'[k];
        }
      }
    }
  }
}
