/** The HamDB locator cache: callsign normalisation, loading the stored
    cache with its 30-day expiry, the locator format check, the cache and
    pending-set bookkeeping of a lookup, and the batch lookup. The network
    answer, the clock and the stored cache are inputs. */
module HamDb {
  import opened Common
  import opened Geo

  /** 30 days, in milliseconds. */
  const HAMDB_CACHE_TTL: int := 30 * 24 * 60 * 60 * 1000

  /** The batch lookup fetches at most this many callsigns. */
  const BATCH_LIMIT: nat := 50

  // ----- callsign normalisation -----

  predicate IsSeparator(c: char)
  {
    c == '/' || c == '-'
  }

  /** The characters at which a regular-expression `.` stops. */
  predicate IsLineTerminator(c: char)
  {
    c == '\n' || c == '\r' || c == '\U{2028}' || c == '\U{2029}'
  }

  /** Removes every run that starts at a `/` or `-` and extends to the next
      line terminator (or the end): the global replacement of `[/-].*` by
      the empty string. */
  function StripSuffix(s: string): (r: string)
    decreases |s|, 0
  {
    if s == [] then []
    else if IsSeparator(s[0]) then DropToLineEnd(s[1..])
    else [s[0]] + StripSuffix(s[1..])
  }

  /** The rest of a removed run: characters up to the next line terminator
      are dropped, and stripping resumes there. */
  function DropToLineEnd(s: string): (r: string)
    decreases |s|, 1
  {
    if s == [] then []
    else if IsLineTerminator(s[0]) then StripSuffix(s)
    else DropToLineEnd(s[1..])
  }

  /** The key under which a callsign is cached: upper-cased, suffixes removed. */
  function Normalize(call: string): string
  {
    StripSuffix(Upper(call))
  }

  /** The position of the first separator in `s`, or |s| when there is none. */
  function FirstSeparator(s: string): (i: nat)
    ensures i <= |s|
    ensures forall j :: 0 <= j < i ==> !IsSeparator(s[j])
    ensures i < |s| ==> IsSeparator(s[i])
  {
    if s == [] then 0
    else if IsSeparator(s[0]) then 0
    else 1 + FirstSeparator(s[1..])
  }

  predicate NoLineTerminator(s: string)
  {
    forall i :: 0 <= i < |s| ==> !IsLineTerminator(s[i])
  }

  lemma {:induction false} DropToLineEndAll(s: string)
    requires NoLineTerminator(s)
    ensures DropToLineEnd(s) == []
  {
    if s != [] {
      DropToLineEndAll(s[1..]);
    }
  }

  /** On a single line, stripping cuts the string at its first separator. */
  lemma {:induction false} StripSuffixSingleLine(s: string)
    requires NoLineTerminator(s)
    ensures StripSuffix(s) == s[..FirstSeparator(s)]
  {
    if s != [] {
      if IsSeparator(s[0]) {
        DropToLineEndAll(s[1..]);
      } else {
        StripSuffixSingleLine(s[1..]);
      }
    }
  }

  /** What survives stripping: input characters, and never a separator. */
  lemma {:induction false} StripSuffixChars(s: string)
    ensures forall i :: 0 <= i < |StripSuffix(s)| ==> !IsSeparator(StripSuffix(s)[i]) && StripSuffix(s)[i] in s
    ensures forall i :: 0 <= i < |DropToLineEnd(s)| ==> !IsSeparator(DropToLineEnd(s)[i]) && DropToLineEnd(s)[i] in s
    decreases |s|
  {
    if s != [] {
      StripSuffixChars(s[1..]);
      if IsLineTerminator(s[0]) && !IsSeparator(s[0]) {
        assert StripSuffix(s) == [s[0]] + StripSuffix(s[1..]);
      }
    }
  }

  lemma {:induction false} StripSuffixIdentity(s: string)
    requires forall i :: 0 <= i < |s| ==> !IsSeparator(s[i])
    ensures StripSuffix(s) == s
  {
    if s != [] {
      StripSuffixIdentity(s[1..]);
    }
  }

  /** Normalising a normalised callsign changes nothing, so the cache key of
      a key is itself. */
  lemma NormalizeIdempotent(call: string)
    ensures Normalize(Normalize(call)) == Normalize(call)
  {
    var n := Normalize(call);
    StripSuffixChars(Upper(call));
    assert Upper(n) == n by {
      forall i | 0 <= i < |n|
        ensures Upper(n)[i] == n[i]
      {
        var k :| 0 <= k < |Upper(call)| && Upper(call)[k] == n[i];
      }
    }
    StripSuffixIdentity(n);
  }

  /** Portable and hyphenated suffixes do not change the key. */
  lemma NormalizeExample()
    ensures Normalize("w1aw/p") == "W1AW" == Normalize("W1AW")
    ensures Normalize("dl1abc-7") == "DL1ABC"
  {
    CutAtSeparator("w1aw", "/p");
    CutAtSeparator("W1AW", "");
    CutAtSeparator("dl1abc", "-7");
    assert Upper("w1aw") == "W1AW" && Upper("dl1abc") == "DL1ABC";
    assert "w1aw" + "/p" == "w1aw/p" && "W1AW" + "" == "W1AW" && "dl1abc" + "-7" == "dl1abc-7";
  }

  /** A single-line callsign followed by a suffix normalises to the
      upper-cased callsign. */
  lemma {:induction false} CutAtSeparator(call: string, suffix: string)
    requires NoLineTerminator(call) && NoLineTerminator(suffix)
    requires forall i :: 0 <= i < |call| ==> !IsSeparator(call[i])
    requires suffix != [] ==> IsSeparator(suffix[0])
    ensures Normalize(call + suffix) == Upper(call)
  {
    var u := Upper(call + suffix);
    assert NoLineTerminator(u);
    StripSuffixSingleLine(u);
    assert u[..|call|] == Upper(call);
    if suffix != [] {
      assert IsSeparator(u[|call|]);
    }
    FirstSeparatorAt(u, |call|);
  }

  lemma {:induction false} FirstSeparatorAt(s: string, k: nat)
    requires k <= |s|
    requires forall i :: 0 <= i < k ==> !IsSeparator(s[i])
    requires k < |s| ==> IsSeparator(s[k])
    ensures FirstSeparator(s) == k
  {
    if s != [] && k > 0 {
      FirstSeparatorAt(s[1..], k - 1);
    }
  }

  // ----- locator validation -----

  predicate IsFieldLetterAnyCase(c: char)
  {
    'A' <= c <= 'R' || 'a' <= c <= 'r'
  }

  predicate IsSubsquareLetterAnyCase(c: char)
  {
    'A' <= c <= 'X' || 'a' <= c <= 'x'
  }

  /** Two field letters, two digits and optionally two subsquare letters, in
      either case, and nothing else. */
  predicate MatchesGridPattern(s: string)
  {
    (|s| == 4 || |s| == 6) &&
    IsFieldLetterAnyCase(s[0]) && IsFieldLetterAnyCase(s[1]) && IsSquareDigit(s[2]) && IsSquareDigit(s[3]) &&
    (|s| == 6 ==> IsSubsquareLetterAnyCase(s[4]) && IsSubsquareLetterAnyCase(s[5]))
  }

  /** The locator HamDB answered, upper-cased, or None when it is missing or
      not a locator. */
  function ValidatedGrid(rawGrid: Option<string>): (r: Option<string>)
    ensures r.Some? <==> Truthy(rawGrid) && MatchesGridPattern(rawGrid.value)
    ensures r.Some? ==> r.value == Upper(rawGrid.value) && (|r.value| == 4 || |r.value| == 6)
    ensures r.Some? ==> IsLocator4(r.value[..4]) && GridToLatLon(r).Some?
  {
    if Truthy(rawGrid) && MatchesGridPattern(rawGrid.value) then
      var g := Upper(rawGrid.value);
      assert Upper(g)[..4] == g[..4];
      Some(g)
    else None
  }

  /** Answers that are not locators are cached as None. */
  lemma ValidatedGridExamples()
    ensures ValidatedGrid(Some("NOT_FOUND")) == None
    ensures ValidatedGrid(Some("fn31pr")) == Some("FN31PR")
    ensures ValidatedGrid(Some("FN31P")) == None
    ensures ValidatedGrid(Some("SN31")) == None
  {
    assert Upper("fn31pr") == "FN31PR";
  }

  // ----- the cache -----

  /** A cache entry: the validated locator (None when HamDB had none) and
      the time it was fetched, in milliseconds; a stored entry may lack a time. */
  datatype CacheEntry = CacheEntry(grid: Option<string>, ts: Option<int>)

  /** An entry is kept on load when its time is present, non-zero and less
      than the TTL before `now`. */
  predicate Fresh(e: CacheEntry, now: int)
  {
    e.ts.Some? && e.ts.value != 0 && now - e.ts.value < HAMDB_CACHE_TTL
  }

  /** The locator cached for `call`, or None for a missing or empty call, a
      call that is not cached, or a cached None or empty locator. */
  function CachedGrid(cache: map<string, CacheEntry>, call: Option<string>): (r: Option<string>)
    ensures !Truthy(call) ==> r.None?
    ensures r.Some? <==> Truthy(call) && Normalize(call.value) in cache && Truthy(cache[Normalize(call.value)].grid)
    ensures r.Some? ==> r == cache[Normalize(call.value)].grid && r.value != ""
  {
    if !Truthy(call) then None
    else
      var n := Normalize(call.value);
      if n in cache && Truthy(cache[n].grid) then cache[n].grid else None
  }

  /** Loads the stored cache, keeping the fresh entries. `stored` is None
      when nothing is stored or it does not parse; a None entry is a stored
      null, whose time cannot be read, and it empties the whole cache. */
  method LoadHamDbCache(stored: Option<map<string, Option<CacheEntry>>>, now: int) returns (valid: map<string, CacheEntry>)
    ensures stored.None? ==> valid == map[]
    ensures stored.Some? && (exists k :: k in stored.value && stored.value[k].None?) ==> valid == map[]
    ensures stored.Some? && (forall k :: k in stored.value ==> stored.value[k].Some?) ==>
      forall k :: (k in valid <==> k in stored.value && Fresh(stored.value[k].value, now)) &&
                  (k in valid ==> valid[k] == stored.value[k].value)
  {
    if stored.None? {
      return map[];
    }
    var entries := stored.value;
    valid := map[];
    var todo := entries.Keys;
    while todo != {}
      invariant todo <= entries.Keys
      invariant forall k :: k in entries && k !in todo ==> entries[k].Some?
      invariant forall k :: (k in valid <==> k in entries && k !in todo && Fresh(entries[k].value, now)) &&
                            (k in valid ==> valid[k] == entries[k].value)
      decreases todo
    {
      var call :| call in todo;
      var entry := entries[call];
      if entry.None? {
        return map[];
      }
      if entry.value.ts.Some? && entry.value.ts.value != 0 && now - entry.value.ts.value < HAMDB_CACHE_TTL {
        valid := valid[call := entry.value];
      }
      todo := todo - {call};
    }
  }

  /** What the server said: the request failed or its body did not parse,
      the status was not OK, or a body with the callsign's locator field. */
  datatype Response = Failed | NotOk | Ok(rawGrid: Option<string>)

  /** The synchronous first half of a lookup. */
  datatype BeginOutcome = Hit(grid: Option<string>) | AlreadyPending | Started(key: string)

  /** The cache after a complete lookup of key `n` while `pending` is in flight:
      only an OK answer to a lookup that was actually sent is recorded. */
  function FetchEffect(cache: map<string, CacheEntry>, pending: set<string>, n: string, response: Response, now: int): map<string, CacheEntry>
  {
    if n in cache || n in pending || !response.Ok? then cache
    else cache[n := CacheEntry(ValidatedGrid(response.rawGrid), Some(now))]
  }

  /** The cache after looking up `calls` one after another. */
  function FetchAll(cache: map<string, CacheEntry>, pending: set<string>, calls: seq<string>, respond: string -> Response, now: int): map<string, CacheEntry>
  {
    if calls == [] then cache
    else
      var n := Normalize(calls[|calls| - 1]);
      FetchEffect(FetchAll(cache, pending, calls[..|calls| - 1], respond, now), pending, n, respond(n), now)
  }

  /** The test of the batch filter: the call's key is not cached. */
  function NotCached(cache: map<string, CacheEntry>): string -> bool
  {
    c => Normalize(c) !in cache
  }

  /** The calls, in order, whose key is not cached: the `filter` of the
      calls by that test, so order and repeated calls are kept. */
  function Uncached(cache: map<string, CacheEntry>, calls: seq<string>): (r: seq<string>)
    ensures |r| <= |calls|
    ensures forall c :: c in r <==> c in calls && Normalize(c) !in cache
    ensures r == Filter(NotCached(cache), calls)
  {
    if calls == [] then []
    else
      var last := calls[|calls| - 1];
      Uncached(cache, calls[..|calls| - 1]) + (if Normalize(last) in cache then [] else [last])
  }

  function Min(a: nat, b: nat): nat
  {
    if a < b then a else b
  }

  /** The locator cache and the set of keys whose lookup is in flight. */
  class GridCache {
    var cache: map<string, CacheEntry>
    var pending: set<string>

    constructor(stored: Option<map<string, Option<CacheEntry>>>, now: int)
      ensures pending == {}
      ensures stored.None? ==> cache == map[]
      ensures stored.Some? && (forall k :: k in stored.value ==> stored.value[k].Some?) ==>
        forall k :: (k in cache <==> k in stored.value && Fresh(stored.value[k].value, now)) &&
                    (k in cache ==> cache[k] == stored.value[k].value)
    {
      var loaded := LoadHamDbCache(stored, now);
      cache := loaded;
      pending := {};
    }

    /** Up to the request: answers a cached call at once, refuses a call
        already in flight, and otherwise marks the key as in flight. */
    method Begin(call: string) returns (outcome: BeginOutcome)
      modifies this
      ensures cache == old(cache)
      ensures Normalize(call) in old(cache) ==>
        outcome == Hit(old(cache)[Normalize(call)].grid) && pending == old(pending)
      ensures Normalize(call) !in old(cache) && Normalize(call) in old(pending) ==>
        outcome == AlreadyPending && pending == old(pending)
      ensures Normalize(call) !in old(cache) && Normalize(call) !in old(pending) ==>
        outcome == Started(Normalize(call)) && pending == old(pending) + {Normalize(call)}
    {
      var n := Normalize(call);
      if n in cache {
        return Hit(cache[n].grid);
      }
      if n in pending {
        return AlreadyPending;
      }
      pending := pending + {n};
      return Started(n);
    }

    /** After the answer: records an OK answer, validated, with the time it
        arrived, and takes the key out of flight on every path. */
    method Complete(n: string, response: Response, now: int) returns (grid: Option<string>)
      requires n in pending
      modifies this
      ensures pending == old(pending) - {n}
      ensures response.Ok? ==> grid == ValidatedGrid(response.rawGrid) &&
                               cache == old(cache)[n := CacheEntry(grid, Some(now))]
      ensures !response.Ok? ==> grid == None && cache == old(cache)
    {
      if !response.Ok? {
        grid := None;
      } else {
        grid := ValidatedGrid(response.rawGrid);
        cache := cache[n := CacheEntry(grid, Some(now))];
      }
      pending := pending - {n};
    }

    /** A whole lookup, with no other lookup interleaved. */
    method FetchGrid(call: string, response: Response, now: int) returns (grid: Option<string>)
      modifies this
      ensures pending == old(pending)
      ensures cache == FetchEffect(old(cache), old(pending), Normalize(call), response, now)
      ensures Normalize(call) in old(cache) ==> grid == old(cache)[Normalize(call)].grid
      ensures Normalize(call) !in old(cache) && Normalize(call) in old(pending) ==> grid == None
      ensures Normalize(call) !in old(cache) && Normalize(call) !in old(pending) ==>
        grid == (if response.Ok? then ValidatedGrid(response.rawGrid) else None)
    {
      var outcome := Begin(call);
      match outcome
      case Hit(g) => grid := g;
      case AlreadyPending => grid := None;
      case Started(n) => grid := Complete(n, response, now);
    }

    /** Looks up, one after another, the first 50 calls whose key is not
        cached. `respond(key)` is the server's answer for a key; `progress`
        lists the completed counts reported after each lookup. */
    method FetchGridsForCallsigns(calls: seq<string>, respond: string -> Response, now: int)
      returns (fetched: seq<string>, progress: seq<nat>)
      modifies this
      ensures fetched == Uncached(old(cache), calls)[..Min(BATCH_LIMIT, |Uncached(old(cache), calls)|)]
      ensures |progress| == |fetched| && forall i :: 0 <= i < |progress| ==> progress[i] == i + 1
      ensures pending == old(pending)
      ensures cache == FetchAll(old(cache), old(pending), fetched, respond, now)
    {
      var uncached := Uncached(cache, calls);
      fetched := uncached[..Min(BATCH_LIMIT, |uncached|)];
      progress := FetchEach(fetched, respond, now);
    }

    /** The lookups of the batch, one after another, reporting the number
        completed after each. */
    method FetchEach(fetched: seq<string>, respond: string -> Response, now: int) returns (progress: seq<nat>)
      modifies this
      ensures |progress| == |fetched| && forall i :: 0 <= i < |progress| ==> progress[i] == i + 1
      ensures pending == old(pending)
      ensures cache == FetchAll(old(cache), old(pending), fetched, respond, now)
    {
      ghost var cache0, pending0 := cache, pending;
      progress := [];
      var completed := 0;
      for i := 0 to |fetched|
        invariant completed == i && |progress| == i
        invariant forall j :: 0 <= j < i ==> progress[j] == j + 1
        invariant pending == pending0
        invariant cache == FetchAll(cache0, pending0, fetched[..i], respond, now)
      {
        FetchAllStep(cache0, pending0, fetched, i, respond, now);
        var n := Normalize(fetched[i]);
        var _ := FetchGrid(fetched[i], respond(n), now);
        completed := completed + 1;
        progress := progress + [completed];
      }
      assert fetched[..|fetched|] == fetched;
    }
  }

  lemma {:induction false} FetchAllStep(cache: map<string, CacheEntry>, pending: set<string>, calls: seq<string>, i: nat,
                                        respond: string -> Response, now: int)
    requires i < |calls|
    ensures FetchAll(cache, pending, calls[..i + 1], respond, now) ==
      FetchEffect(FetchAll(cache, pending, calls[..i], respond, now), pending, Normalize(calls[i]), respond(Normalize(calls[i])), now)
  {
    assert calls[..i + 1][..i] == calls[..i];
  }

  /** A lookup never replaces or removes an entry. */
  lemma {:induction false} FetchAllKeepsEntries(cache: map<string, CacheEntry>, pending: set<string>, calls: seq<string>, respond: string -> Response, now: int)
    ensures forall k :: k in cache ==> k in FetchAll(cache, pending, calls, respond, now) &&
                                       FetchAll(cache, pending, calls, respond, now)[k] == cache[k]
  {
    if calls != [] {
      FetchAllKeepsEntries(cache, pending, calls[..|calls| - 1], respond, now);
    }
  }

  /** Every new key is the key of one of the calls looked up. */
  lemma {:induction false} FetchAllOnlyLooksUp(cache: map<string, CacheEntry>, pending: set<string>, calls: seq<string>, respond: string -> Response, now: int)
    ensures forall k :: k in FetchAll(cache, pending, calls, respond, now) ==>
      k in cache || exists c :: c in calls && Normalize(c) == k
  {
    if calls != [] {
      var init := calls[..|calls| - 1];
      FetchAllOnlyLooksUp(cache, pending, init, respond, now);
      forall k | k in FetchAll(cache, pending, calls, respond, now)
        ensures k in cache || exists c :: c in calls && Normalize(c) == k
      {
        if k !in FetchAll(cache, pending, init, respond, now) {
          assert Normalize(calls[|calls| - 1]) == k;
        } else if k !in cache {
          var c :| c in init && Normalize(c) == k;
          assert c in calls;
        }
      }
    }
  }

  /** A call that was not in flight and got an OK answer is cached
      afterwards, even when HamDB had no locator for it, so it is not
      looked up again. */
  lemma {:induction false} FetchAllCachesAnswered(cache: map<string, CacheEntry>, pending: set<string>, calls: seq<string>, respond: string -> Response, now: int, c: string)
    requires c in calls && Normalize(c) !in pending && respond(Normalize(c)).Ok?
    ensures Normalize(c) in FetchAll(cache, pending, calls, respond, now)
    ensures Uncached(FetchAll(cache, pending, calls, respond, now), [c]) == []
  {
    var init := calls[..|calls| - 1];
    if c == calls[|calls| - 1] {
    } else {
      assert c in init;
      FetchAllCachesAnswered(cache, pending, init, respond, now, c);
    }
    assert Uncached(FetchAll(cache, pending, calls, respond, now), [c])
        == [] + Uncached(FetchAll(cache, pending, calls, respond, now), []);
  }
}
