/** Geographic primitives: Maidenhead locator decoding, the shape of the
    great-circle path, and the longitude wrap and clamp of the map
    projection. Distances are great-circle kilometres computed with
    floating-point trigonometry in the program; here they stay abstract. */
module Geo {
  import opened Common

  datatype Coord = Coord(lat: real, lon: real)

  /** A great-circle distance in kilometres between two coordinates. */
  type Distance = (Coord, Coord) -> real

  predicate IsFieldLetter(c: char)
  {
    'A' <= c <= 'R'
  }

  predicate IsSquareDigit(c: char)
  {
    '0' <= c <= '9'
  }

  /** An upper-case four-character locator: two field letters A-R, then two digits. */
  predicate IsLocator4(g: string)
  {
    |g| == 4 && IsFieldLetter(g[0]) && IsFieldLetter(g[1]) && IsSquareDigit(g[2]) && IsSquareDigit(g[3])
  }

  /** The centre of the 2-by-1 degree square with field indices `fLon`, `fLat`
      (A = 0) and square digits `dLon`, `dLat`. */
  function SquareCentre(fLon: int, fLat: int, dLon: int, dLat: int): Coord
  {
    Coord((fLat * 10 - 90 + dLat) as real + 0.5, (fLon * 20 - 180 + dLon * 2 + 1) as real)
  }

  /** Decodes the field and square of a locator to the centre of its square,
      or None for a missing, short or malformed locator. Only the first four
      characters are read, case-insensitively. */
  function GridToLatLon(grid: Option<string>): (r: Option<Coord>)
    ensures !Truthy(grid) || |grid.value| < 4 ==> r == None
    ensures r.Some? <==> Truthy(grid) && |grid.value| >= 4 && IsLocator4(Upper(grid.value)[..4])
    ensures r.Some? ==> -89.5 <= r.value.lat <= 89.5 && -179.0 <= r.value.lon <= 179.0
  {
    if !Truthy(grid) || |grid.value| < 4 then None
    else
      var g := Upper(grid.value);
      if !IsFieldLetter(g[0]) || !IsFieldLetter(g[1]) then None
      else if !IsSquareDigit(g[2]) || !IsSquareDigit(g[3]) then None
      else Some(SquareCentre(g[0] as int - 'A' as int, g[1] as int - 'A' as int,
                             g[2] as int - '0' as int, g[3] as int - '0' as int))
  }

  /** The south-west corner of the square named by a four-character locator. */
  function SquareCorner(g: string): Coord
    requires IsLocator4(g)
  {
    Coord(((g[1] as int - 'A' as int) * 10 - 90 + (g[3] as int - '0' as int)) as real,
          ((g[0] as int - 'A' as int) * 20 - 180 + (g[2] as int - '0' as int) * 2) as real)
  }

  /** The locator of the square containing `c` (the encoder the decoder inverts). */
  function LocatorOf(c: Coord): (g: string)
    requires -180.0 <= c.lon < 180.0 && -90.0 <= c.lat < 90.0
    ensures IsLocator4(g)
    ensures SquareCorner(g).lon <= c.lon < SquareCorner(g).lon + 2.0
    ensures SquareCorner(g).lat <= c.lat < SquareCorner(g).lat + 1.0
  {
    var x := (c.lon + 180.0).Floor;
    var y := (c.lat + 90.0).Floor;
    [('A' as int + x / 20) as char, ('A' as int + y / 10) as char,
     ('0' as int + (x % 20) / 2) as char, ('0' as int + y % 10) as char]
  }

  /** Case does not matter: a locator and its upper-cased form decode alike. */
  lemma GridCaseInsensitive(g: string)
    ensures GridToLatLon(Some(g)) == GridToLatLon(Some(Upper(g)))
  {
    UpperIdempotent(g);
  }

  /** Only the first four characters matter: a six-character locator decodes
      to the centre of its four-character square. */
  lemma GridPrefixDecodesAlike(g: string)
    requires |g| >= 4
    ensures GridToLatLon(Some(g)) == GridToLatLon(Some(g[..4]))
  {
    assert Upper(g[..4]) == Upper(g)[..4];
  }

  /** The decoded point is the centre of its square: strictly inside it,
      one degree from its west edge and half a degree from its south edge. */
  lemma {:induction false} GridDecodesToSquareCentre(g: string)
    requires IsLocator4(g)
    ensures GridToLatLon(Some(g)) == Some(Coord(SquareCorner(g).lat + 0.5, SquareCorner(g).lon + 1.0))
  {
    UpperIdempotent(g);
    assert Upper(g) == g;
  }

  /** Round trip: encoding a decoded locator gives back its upper-cased
      four-character prefix. */
  lemma {:induction false} GridRoundTrip(g: string)
    requires |g| >= 4 && IsLocator4(Upper(g)[..4])
    ensures GridToLatLon(Some(g)).Some?
    ensures LocatorOf(GridToLatLon(Some(g)).value) == Upper(g)[..4]
  {
    var u := Upper(g);
    var c := GridToLatLon(Some(g)).value;
    var fLon, fLat := u[0] as int - 'A' as int, u[1] as int - 'A' as int;
    var dLon, dLat := u[2] as int - '0' as int, u[3] as int - '0' as int;
    assert c == SquareCentre(fLon, fLat, dLon, dLat);
    var x := fLon * 20 + dLon * 2 + 1;
    var y := fLat * 10 + dLat;
    assert (c.lon + 180.0).Floor == x;
    assert (c.lat + 90.0).Floor == y;
    assert x / 20 == fLon && (x % 20) / 2 == dLon;
    assert y / 10 == fLat && y % 10 == dLat;
    var back := LocatorOf(c);
    assert back[0] == u[0] && back[1] == u[1] && back[2] == u[2] && back[3] == u[3];
    assert back == u[..4];
  }

  /** Distinct upper-case four-character locators decode to distinct points. */
  lemma {:induction false} GridDecodeInjective(g1: string, g2: string)
    requires IsLocator4(g1) && IsLocator4(g2) && g1 != g2
    ensures GridToLatLon(Some(g1)) != GridToLatLon(Some(g2))
  {
    UpperIdempotent(g1);
    UpperIdempotent(g2);
    assert Upper(g1)[..4] == g1 && Upper(g2)[..4] == g2;
    GridRoundTrip(g1);
    GridRoundTrip(g2);
  }

  /** Encoding any point and decoding the locator lands at most one degree of
      longitude and half a degree of latitude away from it. */
  lemma {:induction false} LocatorOfDecodesNearby(c: Coord)
    requires -180.0 <= c.lon < 180.0 && -90.0 <= c.lat < 90.0
    ensures GridToLatLon(Some(LocatorOf(c))).Some?
    ensures -1.0 <= GridToLatLon(Some(LocatorOf(c))).value.lon - c.lon <= 1.0
    ensures -0.5 <= GridToLatLon(Some(LocatorOf(c))).value.lat - c.lat <= 0.5
  {
    var g := LocatorOf(c);
    GridDecodesToSquareCentre(g);
  }

  /** The points of the great-circle path from `from` to the other end.
      `angularDistance` is the central angle between the ends and
      `interpolate(i)` the i-th interpolated point; both come from
      floating-point trigonometry and are inputs here. */
  method GreatCirclePath(from: Coord, numPoints: int, angularDistance: real, interpolate: int -> Coord)
    returns (points: seq<Coord>)
    ensures angularDistance == 0.0 ==> points == [from]
    ensures angularDistance != 0.0 ==> |points| == if numPoints < 0 then 0 else numPoints + 1
    ensures angularDistance != 0.0 ==> forall i :: 0 <= i < |points| ==> points[i] == interpolate(i)
  {
    if angularDistance == 0.0 {
      return [from];
    }
    points := [];
    var i := 0;
    while i <= numPoints
      invariant 0 <= i && (numPoints >= 0 ==> i <= numPoints + 1) && (numPoints < 0 ==> i == 0)
      invariant |points| == i
      invariant forall k :: 0 <= k < i ==> points[k] == interpolate(k)
      decreases numPoints + 1 - i
    {
      points := points + [interpolate(i)];
      i := i + 1;
    }
  }

  const MAP_WIDTH: real := 1009.6727
  const MAP_HEIGHT: real := 665.96301
  const MAP_LON_MIN: real := -169.110266
  const MAP_LON_RANGE: real := 360.0

  /** Projects a longitude onto the world map and clamps the result to the
      map. `yProjected` is the Mercator row before clamping, computed with a
      logarithm in the program and an input here. */
  method LatLonToXY(lon: real, yProjected: real) returns (x: real, y: real)
    ensures 0.0 <= x <= MAP_WIDTH && 0.0 <= y <= MAP_HEIGHT
    ensures 0.0 <= yProjected <= MAP_HEIGHT ==> y == yProjected
    ensures -360.0 <= lon - MAP_LON_MIN < 720.0 ==>
      x < MAP_WIDTH &&
      var back := x / MAP_WIDTH * MAP_LON_RANGE + MAP_LON_MIN;
      back == lon || back == lon - 360.0 || back == lon + 360.0
  {
    var adjustedLon := lon - MAP_LON_MIN;
    if adjustedLon < 0.0 {
      adjustedLon := adjustedLon + 360.0;
    }
    if adjustedLon >= 360.0 {
      adjustedLon := adjustedLon - 360.0;
    }
    var xRaw := (adjustedLon / MAP_LON_RANGE) * MAP_WIDTH;
    x := if xRaw > MAP_WIDTH then MAP_WIDTH else if xRaw < 0.0 then 0.0 else xRaw;
    y := if yProjected > MAP_HEIGHT then MAP_HEIGHT else if yProjected < 0.0 then 0.0 else yProjected;
  }
}
