/** The per-band accumulation of one station's spots (`bandAnalysis`):
    for each band its spots fall in, the best SNR reported, whether a
    spotter near the user heard it, and the nearest such spotter. */
module BandAnalysis {
  import opened Common
  import opened Geo
  import opened Bands
  import opened HamDb
  import opened Spots

  /** How each spot is judged: the band its frequency falls in, the
      distance (km) from the user to its spotter (None when the spotter
      cannot be placed), and the proximity radius (km). The accumulation is
      stated for any such judgement; the station list uses `Judged`. */
  datatype Lookups = Lookups(bandOf: Spot -> Option<Band>, distOf: Spot -> Option<real>, radiusKm: real)

  /** The starting best SNR of a band, below any real report. */
  const NO_SNR: int := -999

  /** What is gathered per band from a station's spots: the best SNR, whether
      a spotter near the user heard it, and the nearest such spotter's call
      and distance. */
  datatype BandAccum = BandAccum(band: Band, bestSnr: int, hasNearbySpot: bool,
                                 nearbyCall: Option<string>, nearbyDist: Option<real>)

  function Fresh(band: Band): BandAccum
  {
    BandAccum(band, NO_SNR, false, None, None)
  }

  /** The band a spot's frequency falls in, if any. */
  function SpotBand(s: Spot): (r: Option<Band>)
    ensures r.None? <==> forall i :: 0 <= i < |BANDS| ==> !Contains(BANDS[i], s.frequency)
    ensures r.Some? ==> r.value in BANDS && Contains(r.value, s.frequency)
    ensures r.Some? ==> forall i :: 0 <= i < |BANDS| && Contains(BANDS[i], s.frequency) ==> BANDS[i] == r.value
  {
    GetBandFromFreq(s.frequency)
  }

  /** The distance from the user at `user` to the spot's spotter, when the
      spotter can be placed. */
  function SpotterDistance(cache: map<string, CacheEntry>, dist: Distance, user: Coord, s: Spot): (r: Option<real>)
    ensures r.Some? <==> SpotterCoords(cache, s).Some?
    ensures r.Some? ==> r.value == dist(user, SpotterCoords(cache, s).value)
  {
    var c := SpotterCoords(cache, s);
    if c.Some? then Some(dist(user, c.value)) else None
  }

  /** The judgement the station list applies: the band table lookup and
      the distance from the user to the spotter's position. */
  function Judged(cache: map<string, CacheEntry>, dist: Distance, user: Coord, radiusKm: real): (l: Lookups)
    ensures l.radiusKm == radiusKm
    ensures forall s :: l.bandOf(s) == SpotBand(s) && l.distOf(s) == SpotterDistance(cache, dist, user, s)
  {
    Lookups(SpotBand, s => SpotterDistance(cache, dist, user, s), radiusKm)
  }

  /** The spot falls in the band named `name`. */
  predicate InBand(l: Lookups, s: Spot, name: string)
  {
    l.bandOf(s).Some? && l.bandOf(s).value.name == name
  }

  /** The spot was heard by a spotter within the proximity radius. */
  predicate IsNearby(l: Lookups, s: Spot)
  {
    l.distOf(s).Some? && l.distOf(s).value <= l.radiusKm
  }

  /** `d < nearbySpotterDist`, where a null distance compares as 0. */
  predicate Closer(d: real, nearbyDist: Option<real>)
  {
    d < if nearbyDist.Some? then nearbyDist.value else 0.0
  }

  /** One spot folded into its band's accumulation: a reported SNR above
      the best replaces it; a nearby spotter marks the band and is recorded
      when no (non-empty) spotter call is recorded yet or it is closer. */
  function Step(l: Lookups, acc: BandAccum, s: Spot): (r: BandAccum)
    ensures r.band == acc.band
    ensures r.bestSnr >= acc.bestSnr && (s.snr.Some? ==> r.bestSnr >= s.snr.value)
    ensures r.bestSnr == acc.bestSnr || Some(r.bestSnr) == s.snr
    ensures r.hasNearbySpot <==> acc.hasNearbySpot || IsNearby(l, s)
    ensures (r.nearbyCall, r.nearbyDist) != (acc.nearbyCall, acc.nearbyDist) ==>
              IsNearby(l, s) && r.nearbyCall == Some(SpotterCall(s)) && r.nearbyDist == l.distOf(s)
    ensures IsNearby(l, s) && !Truthy(acc.nearbyCall) ==>
              r.nearbyCall == Some(SpotterCall(s)) && r.nearbyDist == l.distOf(s)
  {
    var best := if s.snr.Some? && s.snr.value > acc.bestSnr then s.snr.value else acc.bestSnr;
    if IsNearby(l, s) then
      var d := l.distOf(s).value;
      if !Truthy(acc.nearbyCall) || Closer(d, acc.nearbyDist) then
        acc.(bestSnr := best, hasNearbySpot := true, nearbyCall := Some(SpotterCall(s)), nearbyDist := Some(d))
      else acc.(bestSnr := best, hasNearbySpot := true)
    else acc.(bestSnr := best)
  }

  /** The accumulation for band `name` after the spots, in order; None when
      no spot falls in that band. */
  function Analysis(l: Lookups, spots: seq<Spot>, name: string): (r: Option<BandAccum>)
    ensures r.Some? <==> exists i :: 0 <= i < |spots| && InBand(l, spots[i], name)
    ensures r.Some? ==> r.value.band.name == name
  {
    if spots == [] then None
    else
      var init := spots[..|spots| - 1];
      var s := spots[|spots| - 1];
      var prev := Analysis(l, init, name);
      assert forall i :: 0 <= i < |init| ==> init[i] == spots[i];
      if !InBand(l, s, name) then prev
      else Some(Step(l, if prev.Some? then prev.value else Fresh(l.bandOf(s).value), s))
  }

  /** The names of the bands the spots fall in, in spot order. */
  function BandNames(l: Lookups, spots: seq<Spot>): (r: seq<string>)
    ensures forall n :: n in r <==> exists i :: 0 <= i < |spots| && InBand(l, spots[i], n)
  {
    if spots == [] then []
    else
      var init := spots[..|spots| - 1];
      var b := l.bandOf(spots[|spots| - 1]);
      assert forall i :: 0 <= i < |init| ==> init[i] == spots[i];
      if b.Some? then BandNames(l, init) + [b.value.name] else BandNames(l, init)
  }

  /** The band loop's dictionary and key order agree with the spots so far. */
  ghost predicate Analysed(l: Lookups, spots: seq<Spot>,
                           names: seq<string>, analysis: map<string, BandAccum>)
  {
    names == Distinct(BandNames(l, spots)) &&
    (forall n :: n in analysis <==> n in names) &&
    (forall n :: n in analysis ==> Analysis(l, spots, n) == Some(analysis[n]))
  }

  /** The accumulation of every band the spots fall in. */
  function BandMap(l: Lookups, spots: seq<Spot>): (m: map<string, BandAccum>)
    ensures forall n :: n in m <==> exists i :: 0 <= i < |spots| && InBand(l, spots[i], n)
    ensures forall n :: n in m ==> Analysis(l, spots, n) == Some(m[n]) && m[n].band.name == n
  {
    map n | n in BandNames(l, spots) :: Analysis(l, spots, n).value
  }

  /** `bandAnalysis`: the bands the station's spots fall in, in order of
      first appearance, each with its accumulation. */
  method AnalyseBands(l: Lookups, spots: seq<Spot>) returns (names: seq<string>, analysis: map<string, BandAccum>)
    ensures names == Distinct(BandNames(l, spots)) && analysis == BandMap(l, spots)
  {
    names, analysis := [], map[];
    for i := 0 to |spots|
      invariant Analysed(l, spots[..i], names, analysis)
    {
      names, analysis := AnalyseSpot(l, spots[..i], spots[i], names, analysis);
      assert spots[..i] + [spots[i]] == spots[..i + 1];
    }
    assert spots[..|spots|] == spots;
    assert forall n :: n in analysis <==> n in BandMap(l, spots);
  }

  /** The body of the band loop for one spot: a spot outside every band is
      skipped; otherwise its band's accumulation, fresh if the band is new,
      takes the spot. */
  method AnalyseSpot(l: Lookups, ghost spots: seq<Spot>, s: Spot, names: seq<string>, analysis: map<string, BandAccum>)
    returns (names': seq<string>, analysis': map<string, BandAccum>)
    requires Analysed(l, spots, names, analysis)
    ensures Analysed(l, spots + [s], names', analysis')
  {
    var b := l.bandOf(s);
    names', analysis' := names, analysis;
    if b.Some? {
      var name := b.value.name;
      var acc := if name in analysis then analysis[name] else Fresh(b.value);
      if name !in analysis {
        names' := names + [name];
      }
      analysis' := analysis[name := Step(l, acc, s)];
      AnalysedStep(l, spots, s, names, analysis, names', analysis');
    } else {
      AnalysedSkip(l, spots, s, names, analysis);
    }
  }

  /** A spot outside every band changes nothing. */
  lemma {:induction false} AnalysedSkip(l: Lookups, spots: seq<Spot>, s: Spot, names: seq<string>, analysis: map<string, BandAccum>)
    requires Analysed(l, spots, names, analysis) && l.bandOf(s).None?
    ensures Analysed(l, spots + [s], names, analysis)
  {
    BandNamesAppend(l, spots, s);
    forall n | n in analysis
      ensures Analysis(l, spots + [s], n) == Some(analysis[n])
    {
      AnalysisAppend(l, spots, s, n);
    }
  }

  lemma {:induction false} AnalysedStep(l: Lookups, spots: seq<Spot>, s: Spot,
                                        names: seq<string>, analysis: map<string, BandAccum>,
                                        names': seq<string>, analysis': map<string, BandAccum>)
    requires Analysed(l, spots, names, analysis) && l.bandOf(s).Some?
    requires var b := l.bandOf(s).value;
      (b.name in analysis ==> names' == names && analysis' == analysis[b.name := Step(l, analysis[b.name], s)]) &&
      (b.name !in analysis ==> names' == names + [b.name] && analysis' == analysis[b.name := Step(l, Fresh(b), s)])
    ensures Analysed(l, spots + [s], names', analysis')
  {
    var b := l.bandOf(s).value;
    BandNamesAppend(l, spots, s);
    DistinctAppend(BandNames(l, spots), b.name);
    if b.name !in analysis {
      assert b.name !in BandNames(l, spots);
      assert Analysis(l, spots, b.name).None?;
    }
    AnalysisMapStep(l, spots, s, analysis, analysis');
  }

  /** The accumulations after one more spot in a band: that band's entry
      takes the spot, the others stay. */
  lemma {:induction false} AnalysisMapStep(l: Lookups, spots: seq<Spot>, s: Spot,
                                           analysis: map<string, BandAccum>, analysis': map<string, BandAccum>)
    requires l.bandOf(s).Some?
    requires var b := l.bandOf(s).value;
      analysis' == analysis[b.name := Step(l, if b.name in analysis then analysis[b.name] else Fresh(b), s)]
    requires forall n :: n in analysis ==> Analysis(l, spots, n) == Some(analysis[n])
    requires l.bandOf(s).value.name !in analysis ==> Analysis(l, spots, l.bandOf(s).value.name).None?
    ensures forall n :: n in analysis' ==> Analysis(l, spots + [s], n) == Some(analysis'[n])
  {
    forall n | n in analysis'
      ensures Analysis(l, spots + [s], n) == Some(analysis'[n])
    {
      AnalysisAppend(l, spots, s, n);
    }
  }

  lemma {:induction false} BandNamesAppend(l: Lookups, spots: seq<Spot>, s: Spot)
    ensures BandNames(l, spots + [s]) ==
      if l.bandOf(s).Some? then BandNames(l, spots) + [l.bandOf(s).value.name] else BandNames(l, spots)
  {
    assert (spots + [s])[..|spots|] == spots;
  }

  /** One more spot changes only the accumulation of its own band. */
  lemma {:induction false} AnalysisAppend(l: Lookups, spots: seq<Spot>, s: Spot, name: string)
    ensures Analysis(l, spots + [s], name) ==
      if !InBand(l, s, name) then Analysis(l, spots, name)
      else Some(Step(l, if Analysis(l, spots, name).Some? then Analysis(l, spots, name).value else Fresh(l.bandOf(s).value), s))
  {
    assert (spots + [s])[..|spots|] == spots;
  }

  /** A band's best SNR is the largest SNR reported among its spots, or
      NO_SNR when none of them reports one. */
  lemma {:induction false} BestSnrIsMax(l: Lookups, spots: seq<Spot>, name: string)
    requires Analysis(l, spots, name).Some?
    ensures var a := Analysis(l, spots, name).value;
      a.bestSnr >= NO_SNR &&
      (forall i :: 0 <= i < |spots| && InBand(l, spots[i], name) && spots[i].snr.Some? ==> spots[i].snr.value <= a.bestSnr) &&
      (a.bestSnr == NO_SNR || exists i :: 0 <= i < |spots| && InBand(l, spots[i], name) && spots[i].snr == Some(a.bestSnr))
  {
    var init := spots[..|spots| - 1];
    assert forall i :: 0 <= i < |init| ==> init[i] == spots[i];
    if Analysis(l, init, name).Some? {
      BestSnrIsMax(l, init, name);
    }
  }

  /** A band is marked as heard near the user exactly when one of its spots
      came from a spotter within the radius, and then a spotter call and
      distance are recorded, both those of one such spot. */
  lemma {:induction false} NearbyRecorded(l: Lookups, spots: seq<Spot>, name: string)
    requires Analysis(l, spots, name).Some?
    ensures var a := Analysis(l, spots, name).value;
      (a.hasNearbySpot <==> exists i :: 0 <= i < |spots| && InBand(l, spots[i], name) && IsNearby(l, spots[i])) &&
      (a.nearbyCall.Some? <==> a.hasNearbySpot) && (a.nearbyDist.Some? <==> a.hasNearbySpot) &&
      (a.hasNearbySpot ==> exists j :: 0 <= j < |spots| && InBand(l, spots[j], name) && IsNearby(l, spots[j]) &&
                                      a.nearbyCall == Some(SpotterCall(spots[j])) && a.nearbyDist == l.distOf(spots[j]))
  {
    var init := spots[..|spots| - 1];
    assert forall i :: 0 <= i < |init| ==> init[i] == spots[i];
    if Analysis(l, init, name).Some? {
      NearbyRecorded(l, init, name);
    }
  }

  /** Every nearby spot of the band names its spotter. */
  ghost predicate NearbyNamed(l: Lookups, spots: seq<Spot>, name: string)
  {
    forall i :: 0 <= i < |spots| && InBand(l, spots[i], name) && IsNearby(l, spots[i]) ==> SpotterCall(spots[i]) != ""
  }

  /** The recorded spotter is a nearest one, and no earlier nearby spot of
      the band is as near. */
  ghost predicate NearestAt(l: Lookups, spots: seq<Spot>, name: string, a: BandAccum, j: int)
  {
    0 <= j < |spots| && InBand(l, spots[j], name) && IsNearby(l, spots[j]) &&
    a.nearbyCall == Some(SpotterCall(spots[j])) && a.nearbyDist == l.distOf(spots[j]) &&
    (forall i :: 0 <= i < |spots| && InBand(l, spots[i], name) && IsNearby(l, spots[i]) ==>
       a.nearbyDist.value <= l.distOf(spots[i]).value) &&
    (forall i :: 0 <= i < j && InBand(l, spots[i], name) && IsNearby(l, spots[i]) ==>
       a.nearbyDist.value < l.distOf(spots[i]).value)
  }

  /** When every nearby spotter has a call, the recorded one is the nearest,
      and of several equally near the first. */
  lemma {:induction false} NearestSpotter(l: Lookups, spots: seq<Spot>, name: string)
    returns (j: nat)
    requires Analysis(l, spots, name).Some? && Analysis(l, spots, name).value.hasNearbySpot
    requires NearbyNamed(l, spots, name)
    ensures NearestAt(l, spots, name, Analysis(l, spots, name).value, j)
  {
    var init := spots[..|spots| - 1];
    var s := spots[|spots| - 1];
    assert forall i :: 0 <= i < |init| ==> init[i] == spots[i];
    var prev := Analysis(l, init, name);
    var a := Analysis(l, spots, name).value;
    if prev.Some? && prev.value.hasNearbySpot {
      NearbyRecorded(l, init, name);
      var k := NearestSpotter(l, init, name);
      assert Truthy(prev.value.nearbyCall);
      if InBand(l, s, name) && IsNearby(l, s) && Closer(l.distOf(s).value, prev.value.nearbyDist) {
        j := |init|;
      } else {
        j := k;
        assert a.nearbyDist == prev.value.nearbyDist && a.nearbyCall == prev.value.nearbyCall;
      }
    } else {
      if prev.Some? {
        NearbyRecorded(l, init, name);
      }
      j := |init|;
    }
  }
}
