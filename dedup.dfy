/** Merging the two spot feeds: one spot is kept per transmitter callsign
    and frequency rounded to 10 kHz, preferring a spot that carries a
    locator; with no spots at all, four fixed demonstration spots are shown. */
module Dedup {
  import opened Common
  import opened Spots

  /** The deduplication key `${callsign?.toUpperCase()}-${round(frequency / 10) * 10}`,
      kept as its two parts; a missing callsign is None. */
  datatype DedupKey = DedupKey(call: Option<string>, roundedFreq: int)

  function KeyOfSpot(s: Spot): (k: DedupKey)
    ensures k.roundedFreq % 10 == 0
    ensures k.roundedFreq as real - 5.0 <= s.frequency < k.roundedFreq as real + 5.0
    ensures s.callsign.Some? <==> k.call.Some?
  {
    var call := if s.callsign.Some? then Some(Upper(s.callsign.value)) else None;
    DedupKey(call, RoundHalfUp(s.frequency / 10.0) * 10)
  }

  function KeysOf(spots: seq<Spot>): (r: seq<DedupKey>)
    ensures |r| == |spots| && forall i :: 0 <= i < |spots| ==> r[i] == KeyOfSpot(spots[i])
  {
    seq(|spots|, i requires 0 <= i < |spots| => KeyOfSpot(spots[i]))
  }

  /** A later spot replaces the kept one only when it has a locator and the kept one has none. */
  predicate Replaces(existing: Spot, s: Spot)
  {
    Truthy(s.grid) && !Truthy(existing.grid)
  }

  /** The spot kept for key `k` after the spots have been merged in order. */
  function KeptFor(spots: seq<Spot>, k: DedupKey): Option<Spot>
  {
    if spots == [] then None
    else
      var prev := KeptFor(spots[..|spots| - 1], k);
      var s := spots[|spots| - 1];
      if KeyOfSpot(s) != k then prev
      else if prev.None? || Replaces(prev.value, s) then Some(s)
      else prev
  }

  /** The merge loop over a Map: keys in order of first appearance, each
      with the spot kept for it. */
  method Deduplicate(spots: seq<Spot>) returns (r: seq<Spot>)
    ensures |r| == |Distinct(KeysOf(spots))|
    ensures forall j :: 0 <= j < |r| ==> KeptFor(spots, Distinct(KeysOf(spots))[j]) == Some(r[j])
  {
    var order: seq<DedupKey> := [];
    var kept: map<DedupKey, Spot> := map[];
    for i := 0 to |spots|
      invariant Merged(spots[..i], order, kept)
    {
      order, kept := MergeSpot(spots[..i], spots[i], order, kept);
      assert spots[..i] + [spots[i]] == spots[..i + 1];
    }
    assert spots[..|spots|] == spots;
    r := seq(|order|, j requires 0 <= j < |order| => kept[order[j]]);
  }

  /** The body of the merge loop for one spot: a new key is appended to the
      order with the spot; a known key takes the spot only if it replaces
      the kept one. */
  method MergeSpot(ghost spots: seq<Spot>, s: Spot, order: seq<DedupKey>, kept: map<DedupKey, Spot>)
    returns (order': seq<DedupKey>, kept': map<DedupKey, Spot>)
    requires Merged(spots, order, kept)
    ensures Merged(spots + [s], order', kept')
  {
    var key := KeyOfSpot(s);
    order', kept' := order, kept;
    if key !in kept || Replaces(kept[key], s) {
      if key !in kept {
        order' := order + [key];
      }
      kept' := kept[key := s];
    }
    MergedStep(spots, s, order, kept, order', kept');
  }

  /** The merge loop's map and key order agree with the spots merged so far. */
  ghost predicate Merged(spots: seq<Spot>, order: seq<DedupKey>, kept: map<DedupKey, Spot>)
  {
    order == Distinct(KeysOf(spots)) &&
    (forall k :: k in kept <==> k in order) &&
    (forall k :: k in kept ==> KeptFor(spots, k) == Some(kept[k])) &&
    (forall k :: k !in kept ==> KeptFor(spots, k) == None)
  }

  lemma {:induction false} MergedStep(spots: seq<Spot>, s: Spot, order: seq<DedupKey>, kept: map<DedupKey, Spot>,
                                      order': seq<DedupKey>, kept': map<DedupKey, Spot>)
    requires Merged(spots, order, kept)
    requires KeyOfSpot(s) in kept && !Replaces(kept[KeyOfSpot(s)], s) ==> order' == order && kept' == kept
    requires KeyOfSpot(s) in kept && Replaces(kept[KeyOfSpot(s)], s) ==> order' == order && kept' == kept[KeyOfSpot(s) := s]
    requires KeyOfSpot(s) !in kept ==> order' == order + [KeyOfSpot(s)] && kept' == kept[KeyOfSpot(s) := s]
    ensures Merged(spots + [s], order', kept')
  {
    KeysAppend(spots, s);
    forall k | k in kept'
      ensures KeptFor(spots + [s], k) == Some(kept'[k])
    {
      KeptForSnoc(spots, s, k);
    }
    forall k | k !in kept'
      ensures KeptFor(spots + [s], k) == None
    {
      KeptForSnoc(spots, s, k);
    }
  }

  /** One more spot changes only the spot kept for its own key. */
  lemma KeptForSnoc(spots: seq<Spot>, s: Spot, k: DedupKey)
    ensures KeptFor(spots + [s], k) == if KeyOfSpot(s) != k then KeptFor(spots, k)
                                      else if KeptFor(spots, k).None? || Replaces(KeptFor(spots, k).value, s) then Some(s)
                                      else KeptFor(spots, k)
  {
    assert (spots + [s])[..|spots|] == spots;
  }

  lemma {:induction false} KeysAppend(spots: seq<Spot>, s: Spot)
    ensures Distinct(KeysOf(spots + [s])) ==
      if KeyOfSpot(s) in Distinct(KeysOf(spots)) then Distinct(KeysOf(spots)) else Distinct(KeysOf(spots)) + [KeyOfSpot(s)]
  {
    var ks := KeysOf(spots + [s]);
    assert ks[..|spots|] == KeysOf(spots);
    assert ks[|spots|] == KeyOfSpot(s);
  }

  /** A spot is kept for `k` exactly when some spot has key `k`; the kept
      spot has that key and has a locator exactly when some spot of that
      key has one; and it is the first spot of the key with a locator, or,
      when none has one, the first spot of the key. */
  lemma {:induction false} KeptSpot(spots: seq<Spot>, k: DedupKey)
    ensures KeptFor(spots, k).Some? <==> exists i :: 0 <= i < |spots| && KeyOfSpot(spots[i]) == k
    ensures KeptFor(spots, k).Some? ==>
      (Truthy(KeptFor(spots, k).value.grid) <==> exists i :: 0 <= i < |spots| && KeyOfSpot(spots[i]) == k && Truthy(spots[i].grid))
    ensures KeptFor(spots, k).Some? ==>
      exists j :: 0 <= j < |spots| && KeptFor(spots, k).value == spots[j] && KeyOfSpot(spots[j]) == k &&
                  (Truthy(spots[j].grid) ==> forall i :: 0 <= i < j && KeyOfSpot(spots[i]) == k ==> !Truthy(spots[i].grid)) &&
                  (!Truthy(spots[j].grid) ==> forall i :: 0 <= i < j ==> KeyOfSpot(spots[i]) != k)
  {
    if spots != [] {
      var init := spots[..|spots| - 1];
      var s := spots[|spots| - 1];
      KeptSpot(init, k);
      assert forall i :: 0 <= i < |init| ==> init[i] == spots[i];
      var prev := KeptFor(init, k);
      if KeyOfSpot(s) == k && (prev.None? || Replaces(prev.value, s)) {
        assert KeptFor(spots, k) == Some(s);
        if prev.Some? {
          assert forall i :: 0 <= i < |init| && KeyOfSpot(init[i]) == k ==> !Truthy(init[i].grid);
        }
      } else if prev.Some? {
        var j :| 0 <= j < |init| && prev.value == init[j] && KeyOfSpot(init[j]) == k &&
          (Truthy(init[j].grid) ==> forall i :: 0 <= i < j && KeyOfSpot(init[i]) == k ==> !Truthy(init[i].grid)) &&
          (!Truthy(init[j].grid) ==> forall i :: 0 <= i < j ==> KeyOfSpot(init[i]) != k);
        assert KeptFor(spots, k).value == spots[j];
      }
    }
  }

  /** The four spots shown when neither feed returned any. */
  const DEMO_SPOTS: seq<Spot> := [
    Spot(Some("K1USN"), None, None, None, None, None, None, None, 14025.0, Some(25)),
    Spot(Some("VE3WH"), None, None, None, None, None, None, None, 14032.0, Some(18)),
    Spot(Some("K6GTE"), None, None, None, None, None, None, None, 14040.0, Some(12)),
    Spot(Some("G4ABC"), None, None, None, None, None, None, None, 14028.0, Some(8))
  ]

  /** The spots to show: the merged feeds, or the demonstration spots when
      the feeds returned nothing. */
  method ShownSpots(all: seq<Spot>) returns (r: seq<Spot>)
    ensures |all| == 0 ==> r == DEMO_SPOTS
    ensures |all| > 0 ==> |r| == |Distinct(KeysOf(all))| && |r| > 0
    ensures |all| > 0 ==> forall j :: 0 <= j < |r| ==> KeptFor(all, Distinct(KeysOf(all))[j]) == Some(r[j])
  {
    if |all| == 0 {
      return DEMO_SPOTS;
    }
    assert KeyOfSpot(all[0]) in KeysOf(all);
    r := Deduplicate(all);
  }

  /** The demonstration spots are four distinct keys on 20 m, so merging
      them would keep all four. */
  lemma DemoSpotsDistinct()
    ensures forall i, j :: 0 <= i < j < |DEMO_SPOTS| ==> KeyOfSpot(DEMO_SPOTS[i]) != KeyOfSpot(DEMO_SPOTS[j])
  {
    assert Upper("K1USN")[0] == 'K' && Upper("K1USN")[1] == '1';
    assert Upper("VE3WH")[0] == 'V';
    assert Upper("K6GTE")[0] == 'K' && Upper("K6GTE")[1] == '6';
    assert Upper("G4ABC")[0] == 'G';
  }
}
