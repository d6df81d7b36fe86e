/** A reception report ("spot") as the zone engine and the station
    classifier read it, and the field fallbacks both apply to it: the
    spotter's call and locator, the transmitter's call and locator, and the
    points they decode to. */
module Spots {
  import opened Common
  import opened Geo
  import opened HamDb
  import opened Callsigns

  /** A spot from either feed. The reverse-beacon feed names the stations
      `dx_call`, `de_call`, `dx_grid`, `de_grid`; the PSKReporter feed
      names them `callsign`, `spotter`, `grid`, `spotter_grid`. A field a
      feed does not fill is None. Frequency is in kHz. */
  datatype Spot = Spot(
    callsign: Option<string>, dxCall: Option<string>,
    grid: Option<string>, dxGrid: Option<string>,
    spotter: Option<string>, deCall: Option<string>,
    spotterGrid: Option<string>, deGrid: Option<string>,
    frequency: real, snr: Option<int>)

  /** `spot.spotter || spot.de_call || ''`. */
  function SpotterCall(s: Spot): (r: string)
    ensures Truthy(s.spotter) ==> r == s.spotter.value
    ensures !Truthy(s.spotter) && Truthy(s.deCall) ==> r == s.deCall.value
    ensures !Truthy(s.spotter) && !Truthy(s.deCall) ==> r == ""
  {
    OrElse(Or(s.spotter, s.deCall), "")
  }

  /** The spotter's locator: its own field, else the reverse-beacon field,
      else the locator its callsign resolves to. */
  function SpotterGrid(cache: map<string, CacheEntry>, s: Spot): (r: Option<string>)
    ensures Truthy(s.spotterGrid) ==> r == s.spotterGrid
    ensures !Truthy(s.spotterGrid) && Truthy(s.deGrid) ==> r == s.deGrid
    ensures !Truthy(s.spotterGrid) && !Truthy(s.deGrid) ==> r == GetGridFromCall(cache, Some(SpotterCall(s)))
  {
    Or(Or(s.spotterGrid, s.deGrid), GetGridFromCall(cache, Some(SpotterCall(s))))
  }

  /** The point the spotter's locator decodes to, if it does. */
  function SpotterCoords(cache: map<string, CacheEntry>, s: Spot): Option<Coord>
  {
    GridToLatLon(SpotterGrid(cache, s))
  }

  /** `(spot.callsign || spot.dx_call || '').toUpperCase()`. */
  function TxCall(s: Spot): (r: string)
    ensures Truthy(s.callsign) ==> r == Upper(s.callsign.value)
    ensures !Truthy(s.callsign) && Truthy(s.dxCall) ==> r == Upper(s.dxCall.value)
    ensures !Truthy(s.callsign) && !Truthy(s.dxCall) ==> r == ""
  {
    Upper(OrElse(Or(s.callsign, s.dxCall), ""))
  }

  /** The transmitter's locator: its own field, else the reverse-beacon
      field, else the locator its upper-cased callsign resolves to. */
  function TxGrid(cache: map<string, CacheEntry>, s: Spot): (r: Option<string>)
    ensures Truthy(s.grid) ==> r == s.grid
    ensures !Truthy(s.grid) && Truthy(s.dxGrid) ==> r == s.dxGrid
    ensures !Truthy(s.grid) && !Truthy(s.dxGrid) ==> r == GetGridFromCall(cache, Some(TxCall(s)))
  {
    Or(Or(s.grid, s.dxGrid), GetGridFromCall(cache, Some(TxCall(s))))
  }

  function TxCoords(cache: map<string, CacheEntry>, s: Spot): Option<Coord>
  {
    GridToLatLon(TxGrid(cache, s))
  }

  /** A spot whose feed gave no spotter locator still places its spotter,
      by callsign: when the call is not in the locator cache, the spotter is
      placed exactly when the prefix table knows the call. */
  lemma SpotterPlacedByCall(cache: map<string, CacheEntry>, s: Spot)
    requires !Truthy(s.spotterGrid) && !Truthy(s.deGrid)
    requires SpotterCall(s) != "" && CachedGrid(cache, Some(Normalize(SpotterCall(s)))).None?
    ensures SpotterCoords(cache, s).Some? <==> GetGridFromCall(cache, Some(SpotterCall(s))).Some?
  {
    GridFromCallDecodes(cache, Some(SpotterCall(s)));
  }

  /** Likewise for the transmitter, by its upper-cased callsign. */
  lemma TxPlacedByCall(cache: map<string, CacheEntry>, s: Spot)
    requires !Truthy(s.grid) && !Truthy(s.dxGrid)
    requires TxCall(s) != "" && CachedGrid(cache, Some(Normalize(TxCall(s)))).None?
    ensures TxCoords(cache, s).Some? <==> GetGridFromCall(cache, Some(TxCall(s))).Some?
  {
    GridFromCallDecodes(cache, Some(TxCall(s)));
  }

  /** `spot.snr || 0`: a missing SNR counts as 0. */
  function SnrOrZero(s: Spot): (r: int)
    ensures s.snr.Some? ==> r == s.snr.value
    ensures s.snr.None? ==> r == 0
  {
    if s.snr.Some? then s.snr.value else 0
  }
}
