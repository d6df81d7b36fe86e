/** The spots a station list is built from: optionally only those heard by
    chosen spotters, grouped by transmitter callsign. */
module SpotGroups {
  import opened Common
  import opened Spots

  /** `(s.spotter || s.de_call || '').toUpperCase()`. */
  function SpotterKey(s: Spot): string
  {
    Upper(SpotterCall(s))
  }

  /** The test of the spotter filter: the upper-cased spotter is listed. */
  function HeardBy(filter: seq<string>): Spot -> bool
  {
    s => SpotterKey(s) in filter
  }

  /** The spots whose upper-cased spotter is listed: they are the `filter`
      of the spots by that test, so they keep their order and every copy. */
  function KeepSpotters(filter: seq<string>, spots: seq<Spot>): (r: seq<Spot>)
    ensures forall s :: s in r <==> s in spots && SpotterKey(s) in filter
    ensures multiset(r) <= multiset(spots)
    ensures r == Filter(HeardBy(filter), spots)
  {
    if spots == [] then []
    else
      var prev := KeepSpotters(filter, spots[..|spots| - 1]);
      var s := spots[|spots| - 1];
      assert spots == spots[..|spots| - 1] + [s];
      if SpotterKey(s) in filter then prev + [s] else prev
  }

  /** The spotter filter: with a non-empty list, the spots whose
      upper-cased spotter is listed, in order; with an empty one, all. */
  function FilterBySpotter(filter: seq<string>, spots: seq<Spot>): (r: seq<Spot>)
    ensures |filter| == 0 ==> r == spots
    ensures |filter| > 0 ==> forall s :: s in r <==> s in spots && SpotterKey(s) in filter
    ensures |filter| > 0 ==> r == Filter(HeardBy(filter), spots)
    ensures multiset(r) <= multiset(spots)
  {
    if |filter| == 0 then spots else KeepSpotters(filter, spots)
  }

  /** The station a spot belongs to, `s.callsign?.toUpperCase()`, when that
      is non-empty. The reverse-beacon field `dx_call` is not consulted. */
  function CallKey(s: Spot): (r: Option<string>)
    ensures r.Some? <==> s.callsign.Some? && s.callsign.value != ""
    ensures r.Some? ==> r.value == Upper(s.callsign.value) && r.value != ""
  {
    if s.callsign.Some? && Upper(s.callsign.value) != "" then Some(Upper(s.callsign.value)) else None
  }

  /** The station keys of the spots that have one, in spot order. */
  function CallKeys(spots: seq<Spot>): (r: seq<string>)
    ensures forall c :: c in r <==> exists i :: 0 <= i < |spots| && CallKey(spots[i]) == Some(c)
  {
    if spots == [] then []
    else
      var prev := CallKeys(spots[..|spots| - 1]);
      var k := CallKey(spots[|spots| - 1]);
      assert forall i :: 0 <= i < |spots| - 1 ==> spots[..|spots| - 1][i] == spots[i];
      if k.Some? then prev + [k.value] else prev
  }

  /** The test of belonging to station `c`. */
  function OfCall(c: string): Spot -> bool
  {
    s => CallKey(s) == Some(c)
  }

  /** The spots of station `c`, in spot order: the `filter` of the spots by
      their station key, so every copy is kept and the order is the spots'. */
  function SpotsOfCall(spots: seq<Spot>, c: string): (r: seq<Spot>)
    ensures forall s :: s in r <==> s in spots && CallKey(s) == Some(c)
    ensures |r| <= |spots|
    ensures r == Filter(OfCall(c), spots)
  {
    if spots == [] then []
    else
      var prev := SpotsOfCall(spots[..|spots| - 1], c);
      var s := spots[|spots| - 1];
      assert spots == spots[..|spots| - 1] + [s];
      if CallKey(s) == Some(c) then prev + [s] else prev
  }

  /** The grouping loop's dictionary and key order agree with the spots so far. */
  ghost predicate ByCall(spots: seq<Spot>, calls: seq<string>, byCall: map<string, seq<Spot>>)
  {
    calls == Distinct(CallKeys(spots)) &&
    (forall c :: c in byCall <==> c in calls) &&
    (forall c :: c in byCall ==> byCall[c] == SpotsOfCall(spots, c))
  }

  /** `spotsByCall`: the station keys in order of first appearance (the
      key order of the dictionary) and, per key, its spots in order. */
  method GroupByCall(spots: seq<Spot>) returns (calls: seq<string>, byCall: map<string, seq<Spot>>)
    ensures ByCall(spots, calls, byCall)
  {
    calls, byCall := [], map[];
    for i := 0 to |spots|
      invariant ByCall(spots[..i], calls, byCall)
    {
      calls, byCall := AddSpot(spots[..i], spots[i], calls, byCall);
      assert spots[..i] + [spots[i]] == spots[..i + 1];
    }
    assert spots[..|spots|] == spots;
  }

  /** The body of the grouping loop for one spot: a spot without a station
      key is skipped; otherwise it is appended to its station's list, which
      is created (and its key appended to the order) when new. */
  method AddSpot(ghost spots: seq<Spot>, s: Spot, calls: seq<string>, byCall: map<string, seq<Spot>>)
    returns (calls': seq<string>, byCall': map<string, seq<Spot>>)
    requires ByCall(spots, calls, byCall)
    ensures ByCall(spots + [s], calls', byCall')
  {
    var c := CallKey(s);
    calls', byCall' := calls, byCall;
    if c.Some? {
      if c.value in byCall {
        byCall' := byCall[c.value := byCall[c.value] + [s]];
      } else {
        byCall' := byCall[c.value := [s]];
        calls' := calls + [c.value];
      }
    }
    ByCallStep(spots, s, calls, byCall, calls', byCall');
  }

  lemma {:induction false} ByCallStep(spots: seq<Spot>, s: Spot, calls: seq<string>, byCall: map<string, seq<Spot>>,
                                      calls': seq<string>, byCall': map<string, seq<Spot>>)
    requires ByCall(spots, calls, byCall)
    requires CallKey(s).None? ==> calls' == calls && byCall' == byCall
    requires CallKey(s).Some? && CallKey(s).value in byCall ==>
      calls' == calls && byCall' == byCall[CallKey(s).value := byCall[CallKey(s).value] + [s]]
    requires CallKey(s).Some? && CallKey(s).value !in byCall ==>
      calls' == calls + [CallKey(s).value] && byCall' == byCall[CallKey(s).value := [s]]
    ensures ByCall(spots + [s], calls', byCall')
  {
    CallsAppend(spots, s);
    forall c | c in byCall'
      ensures byCall'[c] == SpotsOfCall(spots + [s], c)
    {
      if CallKey(s) == Some(c) && c !in byCall {
        NoSpotsOfCall(spots, c);
      }
    }
  }

  lemma {:induction false} CallsAppend(spots: seq<Spot>, s: Spot)
    ensures CallKeys(spots + [s]) == if CallKey(s).Some? then CallKeys(spots) + [CallKey(s).value] else CallKeys(spots)
    ensures forall c :: SpotsOfCall(spots + [s], c) == if CallKey(s) == Some(c) then SpotsOfCall(spots, c) + [s] else SpotsOfCall(spots, c)
  {
    assert (spots + [s])[..|spots|] == spots;
  }

  lemma NoSpotsOfCall(spots: seq<Spot>, c: string)
    requires c !in CallKeys(spots)
    ensures SpotsOfCall(spots, c) == []
  {
  }

  /** Every station of the grouping has at least one spot. */
  lemma {:induction false} StationsHaveSpots(spots: seq<Spot>, c: string)
    requires c in CallKeys(spots)
    ensures |SpotsOfCall(spots, c)| > 0
  {
    var i :| 0 <= i < |spots| && CallKey(spots[i]) == Some(c);
    assert spots[i] in SpotsOfCall(spots, c);
  }
}
