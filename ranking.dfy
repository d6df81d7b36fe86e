/** What the station list shows: the stations kept for the user and the
    chosen band, sorted into three buckets by status, each ordered by best
    SNR, and the spotters heard from, ordered by how many spots each made. */
module Ranking {
  import opened Common
  import opened Spots
  import opened SpotGroups
  import opened Workability
  import opened Stations

  /** A stable descending order by `key`: the order `Array.prototype.sort`
      gives with the comparator `(a, b) => key(b) - key(a)`. */
  ghost predicate SortedDesc<T>(xs: seq<T>, key: T -> int)
  {
    forall i, j :: 0 <= i < j < |xs| ==> key(xs[i]) >= key(xs[j])
  }

  /** The elements of `xs` whose key is `k`, in order. */
  function WithKey<T>(xs: seq<T>, key: T -> int, k: int): (r: seq<T>)
    ensures |r| <= |xs|
  {
    if xs == [] then []
    else
      var prev := WithKey(xs[..|xs| - 1], key, k);
      if key(xs[|xs| - 1]) == k then prev + [xs[|xs| - 1]] else prev
  }

  lemma {:induction false} WithKeyAppend<T>(a: seq<T>, b: seq<T>, key: T -> int, k: int)
    ensures WithKey(a + b, key, k) == WithKey(a, key, k) + WithKey(b, key, k)
  {
    if b != [] {
      var init, last := b[..|b| - 1], b[|b| - 1];
      assert (a + b)[..|a + b| - 1] == a + init && (a + b)[|a + b| - 1] == last;
      WithKeyAppend(a, init, key, k);
      assert b == init + [last];
      if key(last) == k {
        calc {
          WithKey(a + b, key, k);
          WithKey(a + init, key, k) + [last];
          WithKey(a, key, k) + WithKey(init, key, k) + [last];
          WithKey(a, key, k) + (WithKey(init, key, k) + [last]);
        }
      }
    } else {
      assert a + b == a;
    }
  }

  /** `x` placed into the descending `s` after every element whose key is
      at least its own. */
  function InsertDesc<T>(s: seq<T>, x: T, key: T -> int): (r: seq<T>)
    ensures multiset(r) == multiset(s) + multiset{x}
    ensures forall y :: y in r ==> y == x || y in s
  {
    if s == [] then [x]
    else if key(s[|s| - 1]) >= key(x) then s + [x]
    else
      assert s == s[..|s| - 1] + [s[|s| - 1]];
      InsertDesc(s[..|s| - 1], x, key) + [s[|s| - 1]]
  }

  /** Insertion into a descending sequence keeps it descending. */
  lemma {:induction false} InsertSorted<T>(s: seq<T>, x: T, key: T -> int)
    requires SortedDesc(s, key)
    ensures SortedDesc(InsertDesc(s, x, key), key)
  {
    if s != [] && key(s[|s| - 1]) < key(x) {
      var init, last := s[..|s| - 1], s[|s| - 1];
      InsertSorted(init, x, key);
      var r' := InsertDesc(init, x, key);
      forall i | 0 <= i < |r'|
        ensures key(r'[i]) >= key(last)
      {
        assert r'[i] in r';
        if r'[i] != x {
          assert r'[i] in init;
          var j :| 0 <= j < |init| && init[j] == r'[i];
          assert s[j] == init[j];
        }
      }
    }
  }

  /** Insertion keeps `x` after the elements of equal key. */
  lemma {:induction false} InsertStable<T>(s: seq<T>, x: T, key: T -> int, k: int)
    ensures WithKey(InsertDesc(s, x, key), key, k) == WithKey(s, key, k) + Single(x, key, k)
  {
    if s == [] {
      WithKeySnoc([], x, key, k);
    } else if key(s[|s| - 1]) >= key(x) {
      WithKeySnoc(s, x, key, k);
    } else {
      var init, last := s[..|s| - 1], s[|s| - 1];
      assert s == init + [last];
      InsertStable(init, x, key, k);
      WithKeySnoc(InsertDesc(init, x, key), last, key, k);
      WithKeySnoc(init, last, key, k);
      calc {
        WithKey(InsertDesc(s, x, key), key, k);
        WithKey(InsertDesc(init, x, key) + [last], key, k);
        WithKey(init, key, k) + Single(x, key, k) + Single(last, key, k);
        { assert Single(x, key, k) == [] || Single(last, key, k) == []; }
        WithKey(init, key, k) + Single(last, key, k) + Single(x, key, k);
        WithKey(s, key, k) + Single(x, key, k);
      }
    }
  }

  /** `[x]` when its key is `k`, else nothing. */
  function Single<T>(x: T, key: T -> int, k: int): seq<T>
  {
    if key(x) == k then [x] else []
  }

  lemma WithKeySnoc<T>(s: seq<T>, x: T, key: T -> int, k: int)
    ensures WithKey(s + [x], key, k) == WithKey(s, key, k) + Single(x, key, k)
  {
    assert (s + [x])[..|s|] == s;
  }

  /** The stable sort by `key`, descending. */
  function SortDesc<T>(xs: seq<T>, key: T -> int): (r: seq<T>)
    ensures multiset(r) == multiset(xs)
  {
    if xs == [] then []
    else
      assert xs == xs[..|xs| - 1] + [xs[|xs| - 1]];
      InsertDesc(SortDesc(xs[..|xs| - 1], key), xs[|xs| - 1], key)
  }

  /** The sort orders by key, descending, is a permutation of its input,
      and keeps the input order among elements of equal key. */
  lemma {:induction false} SortDescFacts<T>(xs: seq<T>, key: T -> int)
    ensures SortedDesc(SortDesc(xs, key), key)
    ensures multiset(SortDesc(xs, key)) == multiset(xs)
    ensures forall k :: WithKey(SortDesc(xs, key), key, k) == WithKey(xs, key, k)
  {
    if xs != [] {
      var init, last := xs[..|xs| - 1], xs[|xs| - 1];
      assert xs == init + [last];
      SortDescFacts(init, key);
      InsertSorted(SortDesc(init, key), last, key);
      forall k
        ensures WithKey(SortDesc(xs, key), key, k) == WithKey(xs, key, k)
      {
        InsertStable(SortDesc(init, key), last, key, k);
        WithKeySnoc(init, last, key, k);
      }
    }
  }

  /** `filteredStations`: a station is kept when its callsign is not the
      user's (compared upper-cased) and it has spots, and, when a band is
      chosen, it was heard on that band and the band is not unavailable. */
  predicate Kept(s: Station, userCall: string, filterBand: string)
  {
    Upper(s.call) != Upper(userCall) && s.spotCount > 0 &&
    (filterBand != "" ==> filterBand in s.bands && s.bands[filterBand].verdict.status != Unavailable)
  }

  function FilteredStations(stations: seq<Station>, userCall: string, filterBand: string): (r: seq<Station>)
    ensures |r| <= |stations|
  {
    if stations == [] then []
    else
      var prev := FilteredStations(stations[..|stations| - 1], userCall, filterBand);
      var s := stations[|stations| - 1];
      if Kept(s, userCall, filterBand) then prev + [s] else prev
  }

  /** The filter keeps every copy of a kept station and no copy of any other. */
  lemma {:induction false} FilteredCount(stations: seq<Station>, userCall: string, filterBand: string)
    ensures var r := FilteredStations(stations, userCall, filterBand);
      forall s :: multiset(r)[s] == if Kept(s, userCall, filterBand) then multiset(stations)[s] else 0
  {
    if stations != [] {
      var init := stations[..|stations| - 1];
      assert stations == init + [stations[|stations| - 1]];
      FilteredCount(init, userCall, filterBand);
    }
  }

  /** Filtering keeps the stations' order: the filter of a concatenation
      is the concatenation of the filters. */
  lemma {:induction false} FilteredAppend(a: seq<Station>, b: seq<Station>, userCall: string, filterBand: string)
    ensures FilteredStations(a + b, userCall, filterBand) ==
            FilteredStations(a, userCall, filterBand) + FilteredStations(b, userCall, filterBand)
  {
    if b != [] {
      var init, last := b[..|b| - 1], b[|b| - 1];
      assert (a + b)[..|a + b| - 1] == a + init && (a + b)[|a + b| - 1] == last;
      FilteredAppend(a, init, userCall, filterBand);
      if Kept(last, userCall, filterBand) {
        calc {
          FilteredStations(a + b, userCall, filterBand);
          FilteredStations(a + init, userCall, filterBand) + [last];
          FilteredStations(a, userCall, filterBand) + FilteredStations(init, userCall, filterBand) + [last];
          FilteredStations(a, userCall, filterBand) + (FilteredStations(init, userCall, filterBand) + [last]);
        }
      }
    } else {
      assert a + b == a;
    }
  }

  /** The bucket a station is grouped in: the chosen band's status when the
      station was heard on it, otherwise its overall status. */
  function Bucket(s: Station, filterBand: string): Status
  {
    if filterBand != "" && filterBand in s.bands then s.bands[filterBand].verdict.status else s.status
  }

  /** Of stations never unavailable overall, every one kept lands in one of
      the three buckets. */
  lemma FilteredBuckets(stations: seq<Station>, userCall: string, filterBand: string)
    requires forall i :: 0 <= i < |stations| ==> stations[i].status != Unavailable
    ensures var r := FilteredStations(stations, userCall, filterBand);
      forall i :: 0 <= i < |r| ==> Bucket(r[i], filterBand) != Unavailable
  {
    var r := FilteredStations(stations, userCall, filterBand);
    FilteredCount(stations, userCall, filterBand);
    forall i | 0 <= i < |r|
      ensures Bucket(r[i], filterBand) != Unavailable
    {
      assert multiset(r)[r[i]] > 0;
      assert r[i] in multiset(stations);
    }
  }

  /** The stations of bucket `status`, in order. */
  function InBucket(stations: seq<Station>, filterBand: string, status: Status): (r: seq<Station>)
    ensures forall i :: 0 <= i < |r| ==> Bucket(r[i], filterBand) == status
  {
    if stations == [] then []
    else
      var prev := InBucket(stations[..|stations| - 1], filterBand, status);
      var s := stations[|stations| - 1];
      if Bucket(s, filterBand) == status then prev + [s] else prev
  }

  /** With no station unavailable, the three buckets share out the stations. */
  lemma {:induction false} BucketsPartition(stations: seq<Station>, filterBand: string)
    requires forall i :: 0 <= i < |stations| ==> Bucket(stations[i], filterBand) != Unavailable
    ensures multiset(InBucket(stations, filterBand, Should)) + multiset(InBucket(stations, filterBand, Might)) +
            multiset(InBucket(stations, filterBand, Unlikely)) == multiset(stations)
  {
    if stations != [] {
      var init := stations[..|stations| - 1];
      assert stations == init + [stations[|stations| - 1]];
      BucketsPartition(init, filterBand);
    }
  }

  /** The sort key of the buckets. */
  function BestSnrOf(s: Station): int
  {
    s.bestSnr
  }

  /** `groupedStations`: each station is pushed into its bucket in order,
      then each bucket is sorted by best SNR, highest first. */
  method GroupStations(filtered: seq<Station>, filterBand: string)
    returns (should: seq<Station>, might: seq<Station>, unlikely: seq<Station>)
    requires forall i :: 0 <= i < |filtered| ==> Bucket(filtered[i], filterBand) != Unavailable
    ensures should == SortDesc(InBucket(filtered, filterBand, Should), BestSnrOf)
    ensures might == SortDesc(InBucket(filtered, filterBand, Might), BestSnrOf)
    ensures unlikely == SortDesc(InBucket(filtered, filterBand, Unlikely), BestSnrOf)
    ensures multiset(should) + multiset(might) + multiset(unlikely) == multiset(filtered)
    ensures forall i :: 0 <= i < |should| ==> Bucket(should[i], filterBand) == Should
    ensures forall i :: 0 <= i < |might| ==> Bucket(might[i], filterBand) == Might
    ensures forall i :: 0 <= i < |unlikely| ==> Bucket(unlikely[i], filterBand) == Unlikely
    ensures SortedDesc(should, BestSnrOf) && SortedDesc(might, BestSnrOf) && SortedDesc(unlikely, BestSnrOf)
  {
    should, might, unlikely := [], [], [];
    for i := 0 to |filtered|
      invariant should == InBucket(filtered[..i], filterBand, Should)
      invariant might == InBucket(filtered[..i], filterBand, Might)
      invariant unlikely == InBucket(filtered[..i], filterBand, Unlikely)
    {
      var s := filtered[i];
      TakeSnoc(filtered, i);
      match Bucket(s, filterBand)
      case Should => should := should + [s];
      case Might => might := might + [s];
      case Unlikely => unlikely := unlikely + [s];
      case Unavailable => assert false;
    }
    assert filtered[..|filtered|] == filtered;
    BucketsPartition(filtered, filterBand);
    SortedBucket(should, filterBand, Should);
    SortedBucket(might, filterBand, Might);
    SortedBucket(unlikely, filterBand, Unlikely);
    should := SortDesc(should, BestSnrOf);
    might := SortDesc(might, BestSnrOf);
    unlikely := SortDesc(unlikely, BestSnrOf);
  }

  /** Sorting a bucket keeps it sorted into the same bucket. */
  lemma SortedBucket(xs: seq<Station>, filterBand: string, status: Status)
    requires forall i :: 0 <= i < |xs| ==> Bucket(xs[i], filterBand) == status
    ensures var r := SortDesc(xs, BestSnrOf);
      SortedDesc(r, BestSnrOf) && forall i :: 0 <= i < |r| ==> Bucket(r[i], filterBand) == status
  {
    var r := SortDesc(xs, BestSnrOf);
    SortDescFacts(xs, BestSnrOf);
    forall i | 0 <= i < |r|
      ensures Bucket(r[i], filterBand) == status
    {
      assert r[i] in multiset(xs);
    }
  }

  /** One entry of the spotter list. */
  datatype SpotterCount = SpotterCount(call: string, count: nat)

  function CountOf(e: SpotterCount): int
  {
    e.count
  }

  /** The test of the counting loop: a spotter key is counted when non-empty. */
  function Counts(k: string): bool
  {
    k != ""
  }

  /** The non-empty upper-cased spotter callsigns of the spots, in order;
      `SpotterKeysFiltered` pins order and copies. */
  function SpotterKeys(spots: seq<Spot>): (r: seq<string>)
    ensures forall c :: c in r <==> c != "" && exists i :: 0 <= i < |spots| && SpotterKey(spots[i]) == c
  {
    if spots == [] then []
    else
      var prev := SpotterKeys(spots[..|spots| - 1]);
      var k := SpotterKey(spots[|spots| - 1]);
      assert forall i :: 0 <= i < |spots| - 1 ==> spots[..|spots| - 1][i] == spots[i];
      if k != "" then prev + [k] else prev
  }

  /** The keys are those of all the spots, filtered: one per spot that has
      one, in spot order. */
  lemma {:induction false} SpotterKeysFiltered(spots: seq<Spot>)
    ensures SpotterKeys(spots) == Filter(Counts, Mapped(SpotterKey, spots))
  {
    if spots != [] {
      SpotterKeysFiltered(spots[..|spots| - 1]);
      MappedLast(SpotterKey, spots);
      FilterSnoc(Counts, Mapped(SpotterKey, spots[..|spots| - 1]), SpotterKey(spots[|spots| - 1]));
    }
  }

  lemma {:induction false} SpotterKeysAppend(spots: seq<Spot>, s: Spot)
    ensures SpotterKeys(spots + [s]) == if SpotterKey(s) != "" then SpotterKeys(spots) + [SpotterKey(s)] else SpotterKeys(spots)
  {
    assert (spots + [s])[..|spots|] == spots;
  }

  /** The counting loop's dictionary and key order agree with the spots so far. */
  ghost predicate Counted(spots: seq<Spot>, order: seq<string>, counts: map<string, nat>)
  {
    order == Distinct(SpotterKeys(spots)) &&
    (forall c :: c in counts <==> c in order) &&
    (forall c :: c in counts ==> counts[c] == multiset(SpotterKeys(spots))[c])
  }

  /** The counting loop of `activeSpotters`: keys in order of first
      appearance, each with the number of spots it made. */
  method CountSpotters(spots: seq<Spot>) returns (order: seq<string>, counts: map<string, nat>)
    ensures Counted(spots, order, counts)
  {
    order, counts := [], map[];
    for i := 0 to |spots|
      invariant Counted(spots[..i], order, counts)
    {
      order, counts := CountSpot(spots[..i], spots[i], order, counts);
      assert spots[..i] + [spots[i]] == spots[..i + 1];
    }
    assert spots[..|spots|] == spots;
  }

  /** The body of the counting loop for one spot: an empty spotter is
      skipped; otherwise its count goes up by one, starting from 1 (and
      its key appended to the order) when new. */
  method CountSpot(ghost spots: seq<Spot>, s: Spot, order: seq<string>, counts: map<string, nat>)
    returns (order': seq<string>, counts': map<string, nat>)
    requires Counted(spots, order, counts)
    ensures Counted(spots + [s], order', counts')
  {
    var k := SpotterKey(s);
    order', counts' := order, counts;
    if k == "" {
      CountedSkip(spots, s, order, counts);
    } else {
      if k in counts {
        counts' := counts[k := counts[k] + 1];
      } else {
        counts' := counts[k := 1];
        order' := order + [k];
      }
      CountedStep(spots, s, order, counts, order', counts');
    }
  }

  /** A spot without a spotter key changes nothing. */
  lemma CountedSkip(spots: seq<Spot>, s: Spot, order: seq<string>, counts: map<string, nat>)
    requires Counted(spots, order, counts) && SpotterKey(s) == ""
    ensures Counted(spots + [s], order, counts)
  {
    SpotterKeysAppend(spots, s);
  }

  /** A spot with a spotter key counts once more for it, and a new key is
      appended to the order. */
  lemma {:induction false} CountedStep(spots: seq<Spot>, s: Spot, order: seq<string>, counts: map<string, nat>,
                                       order': seq<string>, counts': map<string, nat>)
    requires Counted(spots, order, counts) && SpotterKey(s) != ""
    requires SpotterKey(s) in counts ==>
      order' == order && counts' == counts[SpotterKey(s) := counts[SpotterKey(s)] + 1]
    requires SpotterKey(s) !in counts ==>
      order' == order + [SpotterKey(s)] && counts' == counts[SpotterKey(s) := 1]
    ensures Counted(spots + [s], order', counts')
  {
    SpotterKeysAppend(spots, s);
    KeysCountedStep(SpotterKeys(spots), SpotterKey(s), order, counts, order', counts');
  }

  /** The same step stated over the key sequence. */
  lemma KeysCountedStep(keys: seq<string>, k: string, order: seq<string>, counts: map<string, nat>,
                        order': seq<string>, counts': map<string, nat>)
    requires order == Distinct(keys) && (forall c :: c in counts <==> c in order)
    requires forall c :: c in counts ==> counts[c] == multiset(keys)[c]
    requires k in counts ==> order' == order && counts' == counts[k := counts[k] + 1]
    requires k !in counts ==> order' == order + [k] && counts' == counts[k := 1]
    ensures order' == Distinct(keys + [k]) && (forall c :: c in counts' <==> c in order')
    ensures forall c :: c in counts' ==> counts'[c] == multiset(keys + [k])[c]
  {
    assert multiset(keys + [k]) == multiset(keys) + multiset{k};
    DistinctAppend(keys, k);
    if k !in counts {
      assert k !in keys;
    }
    CountsBumped(counts, multiset(keys), k, counts');
  }

  /** Counting one more occurrence of `k` keeps the map equal to the multiset. */
  lemma CountsBumped(counts: map<string, nat>, ms: multiset<string>, k: string, counts': map<string, nat>)
    requires forall c :: c in counts ==> counts[c] == ms[c]
    requires counts' == counts[k := ms[k] + 1]
    ensures forall c :: c in counts' ==> counts'[c] == (ms + multiset{k})[c]
  {
  }

  /** The entries of the keys `order`, in that order. */
  function Entries(order: seq<string>, counts: map<string, nat>): (r: seq<SpotterCount>)
    requires forall c :: c in order ==> c in counts
    ensures |r| == |order| && forall i :: 0 <= i < |order| ==> r[i] == SpotterCount(order[i], counts[order[i]])
  {
    seq(|order|, i requires 0 <= i < |order| => SpotterCount(order[i], counts[order[i]]))
  }

  /** The entries before sorting: each spotter key, in order of first
      appearance, with the number of spots it made. */
  function SpotterEntries(spots: seq<Spot>): (r: seq<SpotterCount>)
    ensures NoDup(CallsOf(r))
    ensures forall c :: c in CallsOf(r) <==> c in SpotterKeys(spots)
    ensures forall i :: 0 <= i < |r| ==> r[i].count == multiset(SpotterKeys(spots))[r[i].call] > 0
  {
    var keys := SpotterKeys(spots);
    var order := Distinct(keys);
    var r := seq(|order|, i requires 0 <= i < |order| => SpotterCount(order[i], multiset(keys)[order[i]]));
    assert CallsOf(r) == order;
    forall i | 0 <= i < |order|
      ensures multiset(keys)[order[i]] > 0
    {
      assert order[i] in order;
    }
    r
  }

  /** The callsigns of the entries, in order. */
  function CallsOf(r: seq<SpotterCount>): (calls: seq<string>)
    ensures |calls| == |r| && forall i :: 0 <= i < |r| ==> calls[i] == r[i].call
  {
    seq(|r|, i requires 0 <= i < |r| => r[i].call)
  }

  /** `activeSpotters`: the counts, as entries in key order, sorted by
      count, highest first. */
  method ActiveSpotters(spots: seq<Spot>) returns (r: seq<SpotterCount>)
    ensures r == SortDesc(SpotterEntries(spots), CountOf)
  {
    var order, counts := CountSpotters(spots);
    var entries := Entries(order, counts);
    assert entries == SpotterEntries(spots);
    r := SortDesc(entries, CountOf);
  }

  /** The spotter list names each spotter heard exactly once, with the
      number of spots it made, highest count first and, among equal
      counts, in order of first appearance. */
  lemma SpotterList(spots: seq<Spot>)
    ensures var r := SortDesc(SpotterEntries(spots), CountOf);
      NoDup(CallsOf(r)) &&
      (forall c :: c in CallsOf(r) <==> c != "" && exists i :: 0 <= i < |spots| && SpotterKey(spots[i]) == c) &&
      (forall i :: 0 <= i < |r| ==> r[i].count == multiset(SpotterKeys(spots))[r[i].call] > 0) &&
      SortedDesc(r, CountOf) &&
      forall k :: WithKey(r, CountOf, k) == WithKey(SpotterEntries(spots), CountOf, k)
  {
    var entries := SpotterEntries(spots);
    var r := SortDesc(entries, CountOf);
    SortDescFacts(entries, CountOf);
    PermutedEntries(entries, r);
  }

  /** A permutation of entries keeps the entries and their callsigns. */
  lemma PermutedEntries(entries: seq<SpotterCount>, r: seq<SpotterCount>)
    requires multiset(r) == multiset(entries)
    ensures forall i :: 0 <= i < |r| ==> r[i] in entries
    ensures forall c :: c in CallsOf(r) <==> c in CallsOf(entries)
    ensures NoDup(CallsOf(entries)) ==> NoDup(CallsOf(r))
  {
    forall i | 0 <= i < |r|
      ensures r[i] in entries
    {
      assert r[i] in multiset(entries);
    }
    forall j | 0 <= j < |entries|
      ensures entries[j] in r
    {
      assert entries[j] in multiset(r);
    }
    if NoDup(CallsOf(entries)) {
      forall i, j | 0 <= i < j < |r|
        ensures r[i].call != r[j].call
      {
        DistinctEntries(entries, r, i, j);
      }
    }
  }

  lemma DistinctEntries(entries: seq<SpotterCount>, r: seq<SpotterCount>, i: nat, j: nat)
    requires NoDup(CallsOf(entries))
    requires multiset(r) == multiset(entries)
    requires i < j < |r|
    ensures r[i].call != r[j].call
  {
    assert r[i] in multiset(entries) && r[j] in multiset(entries);
    var a :| 0 <= a < |entries| && entries[a] == r[i];
    var b :| 0 <= b < |entries| && entries[b] == r[j];
    OnceInSeq(entries, a);
    assert r == r[..j] + [r[j]] + r[j + 1..];
    assert r[i] in r[..j];
    assert multiset(r)[r[i]] >= 1 + (if r[j] == r[i] then 1 else 0);
    assert r[j] != r[i];
    assert b != a;
  }

  /** With distinct callsigns, each entry occurs once. */
  lemma {:induction false} OnceInSeq(entries: seq<SpotterCount>, a: nat)
    requires NoDup(CallsOf(entries))
    requires a < |entries|
    ensures multiset(entries)[entries[a]] == 1
    ensures forall b :: 0 <= b < |entries| && entries[b].call == entries[a].call ==> b == a
  {
    var e := entries[a];
    assert entries == entries[..a] + [e] + entries[a + 1..];
    assert e !in entries[..a];
    assert e !in entries[a + 1..];
  }
}
