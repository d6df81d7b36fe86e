/** Locating a station from its callsign: the HamDB cache first, then the
    longest matching prefix of a static prefix table; and the region name
    shown for a callsign. */
module Callsigns {
  import opened Common
  import opened Geo
  import opened HamDb

  /** An upper-case four-character locator. */
  type Locator = g: string | IsLocator4(g) witness "AA00"

  /** A lookup in the static prefix table: every locator it gives is
      well-formed by its type and decodes to a point. */
  function PrefixToGrid(k: string): (r: Option<Locator>)
    ensures r.Some? ==> GridToLatLon(Some(r.value)).Some?
  {
    var r := PrefixTable(k);
    if r.Some? then GridDecodesToSquareCentre(r.value); r else r
  }

  /** The static prefix table: the locator of a typical station for each
      callsign prefix of one to three characters. */
  function PrefixTable(k: string): Option<Locator>
  {
    match k
    case "W1" => Some("FN31") case "K1" => Some("FN31") case "N1" => Some("FN31") case "AA1" => Some("FN31") case "AB1" => Some("FN31") case "KC1" => Some("FN31")
    case "W2" => Some("FN20") case "K2" => Some("FN20") case "N2" => Some("FN20") case "AA2" => Some("FN20") case "AB2" => Some("FN20")
    case "W3" => Some("FM19") case "K3" => Some("FM19") case "N3" => Some("FM19") case "AA3" => Some("FM19")
    case "W4" => Some("EM73") case "K4" => Some("EM73") case "N4" => Some("EM73") case "AA4" => Some("EM73") case "KN4" => Some("EM73") case "KO4" => Some("EM73")
    case "W5" => Some("EM12") case "K5" => Some("EM12") case "N5" => Some("EM12") case "AA5" => Some("EM12") case "AG5" => Some("EM12") case "KI5" => Some("EM12")
    case "W6" => Some("CM87") case "K6" => Some("CM87") case "N6" => Some("CM87") case "AA6" => Some("CM87") case "AC6" => Some("CM87") case "KE6" => Some("CM87") case "KN6" => Some("CM87")
    case "W7" => Some("DN31") case "K7" => Some("DN31") case "N7" => Some("DN31") case "AA7" => Some("DN31") case "KG7" => Some("DN31") case "KJ7" => Some("DN31")
    case "W8" => Some("EN81") case "K8" => Some("EN81") case "N8" => Some("EN81") case "AA8" => Some("EN81") case "AC8" => Some("EN81") case "KE8" => Some("EN81")
    case "W9" => Some("EN52") case "K9" => Some("EN52") case "N9" => Some("EN52") case "AA9" => Some("EN52") case "KD9" => Some("EN52")
    case "W0" => Some("DN70") case "K0" => Some("DN70") case "N0" => Some("DN70") case "AA0" => Some("DN70") case "KC0" => Some("DN70") case "KE0" => Some("DN70") case "AE0" => Some("DN70")
    case "VE1" => Some("FN74") case "VE2" => Some("FN35") case "VE3" => Some("FN03") case "VE4" => Some("EN19") case "VE5" => Some("DO51") case "VE6" => Some("DO33") case "VE7" => Some("CN89") case "VA" => Some("FN03")
    case "G" => Some("IO91") case "M" => Some("IO91") case "2E" => Some("IO91")
    case "DL" => Some("JO51") case "DJ" => Some("JO51") case "DK" => Some("JO51") case "DF" => Some("JO51") case "DG" => Some("JO51") case "DO" => Some("JO51")
    case "F" => Some("JN18") case "ON" => Some("JO20") case "PA" => Some("JO22") case "PD" => Some("JO22")
    case "EA" => Some("IN80") case "I" => Some("JN62") case "IK" => Some("JN62") case "IZ" => Some("JN62")
    case "JA" => Some("PM95") case "JH" => Some("PM95") case "JR" => Some("PM95") case "JE" => Some("PM95") case "JG" => Some("PM95") case "JI" => Some("PM95")
    case "VK" => Some("QF22") case "VK2" => Some("QF56") case "VK3" => Some("QF22") case "VK4" => Some("QG62")
    case "ZL" => Some("RF72") case "ZL1" => Some("RF72") case "ZL2" => Some("RE78")
    case "LU" => Some("GF05") case "PY" => Some("GG87") case "CE" => Some("FF46")
    case "SP" => Some("KO02") case "OK" => Some("JO70") case "OM" => Some("JN88") case "HA" => Some("JN97") case "YO" => Some("KN34")
    case "SM" => Some("JO89") case "LA" => Some("JO59") case "OH" => Some("KP20") case "OZ" => Some("JO55")
    case "KH6" => Some("BL10") case "KH" => Some("BL10") case "KP4" => Some("FK68") case "UA" => Some("KO85") case "RU" => Some("KO85") case "R" => Some("KO85")
    case "BY" => Some("OM89") case "BV" => Some("PL05") case "HL" => Some("PM37") case "DS" => Some("PM37") case "YB" => Some("OI33") case "ZS" => Some("KG33")
    case _ => None
  }

  /** `c.substring(0, len)`: the first `len` characters, or all of a shorter string. */
  function Prefix(c: string, len: nat): (p: string)
    ensures |p| == if len < |c| then len else |c|
    ensures p <= c
  {
    if len < |c| then c[..len] else c
  }

  /** The table value of the longest prefix of `c` of at most `len`
      characters that the table has. */
  function LongestPrefixGrid(c: string, len: nat): (r: Option<Locator>)
    ensures r.None? <==> forall l :: 1 <= l <= len ==> PrefixToGrid(Prefix(c, l)).None?
    ensures r.Some? ==> exists l :: 1 <= l <= len && r == PrefixToGrid(Prefix(c, l)) &&
                                    forall m :: l < m <= len ==> PrefixToGrid(Prefix(c, m)).None?
    decreases len
  {
    if len == 0 then None
    else
      var g := PrefixToGrid(Prefix(c, len));
      if g.Some? then g else LongestPrefixGrid(c, len - 1)
  }

  /** The locator of a station: the cached HamDB locator of its normalised
      callsign, else the longest prefix match of at most three characters,
      else the single-character lookup on the first character. None for a
      missing or empty callsign. */
  function GetGridFromCall(cache: map<string, CacheEntry>, call: Option<string>): (r: Option<string>)
    ensures !Truthy(call) ==> r.None?
    ensures Truthy(call) && CachedGrid(cache, Some(Normalize(call.value))).Some? ==>
      r == CachedGrid(cache, Some(Normalize(call.value)))
    ensures (Truthy(call) && Normalize(call.value) != "" && Normalize(call.value) in cache &&
             Truthy(cache[Normalize(call.value)].grid)) ==> r == cache[Normalize(call.value)].grid
    ensures Truthy(call) && CachedGrid(cache, Some(Normalize(call.value))).None? ==>
      r == LongestPrefixGrid(Normalize(call.value), 3)
    ensures r.Some? ==> r.value != ""
  {
    if !Truthy(call) then None
    else
      var c := Normalize(call.value);
      NormalizeIdempotent(call.value);
      var cachedGrid := CachedGrid(cache, Some(c));
      if cachedGrid.Some? then cachedGrid
      else
        var g := LongestPrefixGrid(c, 3);
        if g.Some? then Some(g.value)
        else if c == "" then None
        else
          assert [c[0]] == Prefix(c, 1);
          PrefixToGrid([c[0]])
  }

  /** Without a cache entry, a located station's locator decodes. */
  lemma {:induction false} GridFromCallDecodes(cache: map<string, CacheEntry>, call: Option<string>)
    requires Truthy(call) && CachedGrid(cache, Some(Normalize(call.value))).None?
    ensures GetGridFromCall(cache, call).Some? ==> GridToLatLon(GetGridFromCall(cache, call)).Some?
  {
    var r := LongestPrefixGrid(Normalize(call.value), 3);
    if r.Some? {
      GridDecodesToSquareCentre(r.value);
    }
  }

  /** A portable suffix does not change where a station is placed. */
  lemma PortableSuffixIgnored(cache: map<string, CacheEntry>)
    ensures GetGridFromCall(cache, Some("w1aw/p")) == GetGridFromCall(cache, Some("W1AW"))
  {
    NormalizeExample();
  }

  /** The longest prefix wins: VK2 has its own entry, VK5 falls back to VK. */
  lemma PrefixExampleVk2()
    ensures LongestPrefixGrid("VK2ABC", 3) == Some("QF56")
  {
    assert Prefix("VK2ABC", 3) == "VK2";
    assert PrefixTable("VK2") == Some("QF56");
  }

  lemma PrefixExampleVk5()
    ensures LongestPrefixGrid("VK5ABC", 3) == Some("QF22")
  {
    assert Prefix("VK5ABC", 3) == "VK5" && Prefix("VK5ABC", 2) == "VK";
    assert PrefixTable("VK5") == None;
    assert PrefixTable("VK") == Some("QF22");
  }

  /** Example: the table has none of XX9, XX and X. */
  lemma PrefixTableExampleMisses()
    ensures PrefixTable("XX9") == None && PrefixTable("XX") == None && PrefixTable("X") == None
  {
  }

  /** No prefix of XX9 is in the table. */
  lemma PrefixExampleUnknown()
    ensures LongestPrefixGrid("XX9", 3) == None
  {
    assert Prefix("XX9", 3) == "XX9" && Prefix("XX9", 2) == "XX" && Prefix("XX9", 1) == "X";
    PrefixTableExampleMisses();
  }

  /** A callsign that is nothing but a suffix is not located. */
  lemma SuffixOnlyNotLocated(cache: map<string, CacheEntry>)
    ensures GetGridFromCall(cache, Some("/P")) == None
  {
    assert Upper("/P") == "/P";
    assert Normalize("/P") == "";
    assert PrefixTable("") == None;
  }

  /** The region table: a country name for each one- or two-character prefix. */
  function RegionOf(k: string): (r: Option<string>)
    ensures r.Some? ==> 1 <= |k| <= 2 && r.value != "" && r.value != "Unknown"
  {
    match k
    case "W" => Some("USA") case "K" => Some("USA") case "N" => Some("USA") case "AA" => Some("USA")
    case "VE" => Some("Canada") case "VA" => Some("Canada")
    case "G" => Some("UK") case "M" => Some("UK")
    case "DL" => Some("Germany") case "DJ" => Some("Germany") case "DK" => Some("Germany")
    case "F" => Some("France") case "EA" => Some("Spain") case "I" => Some("Italy")
    case "JA" => Some("Japan") case "JH" => Some("Japan")
    case "VK" => Some("Australia") case "ZL" => Some("NZ")
    case "SP" => Some("Poland") case "SM" => Some("Sweden") case "LA" => Some("Norway") case "OH" => Some("Finland")
    case _ => None
  }

  /** The region of the longest prefix of `c` of at most `len` characters
      that the region table has. */
  function LongestPrefixRegion(c: string, len: nat): (r: Option<string>)
    ensures r.None? <==> forall l :: 1 <= l <= len ==> RegionOf(Prefix(c, l)).None?
    ensures r.Some? ==> exists l :: 1 <= l <= len && r == RegionOf(Prefix(c, l)) &&
                                    forall m :: l < m <= len ==> RegionOf(Prefix(c, m)).None?
    decreases len
  {
    if len == 0 then None
    else
      var g := RegionOf(Prefix(c, len));
      if g.Some? then g else LongestPrefixRegion(c, len - 1)
  }

  /** The region shown for a callsign: "Unknown" for a missing or empty
      callsign, else the region of its longest known prefix, else its first
      two characters. The callsign is upper-cased but its suffix is kept. */
  function GetRegionFromCall(call: Option<string>): (r: string)
    ensures !Truthy(call) ==> r == "Unknown"
    ensures Truthy(call) ==> r != "Unknown"
    ensures Truthy(call) && LongestPrefixRegion(Upper(call.value), 3).None? ==> r == Prefix(Upper(call.value), 2)
    ensures Truthy(call) && LongestPrefixRegion(Upper(call.value), 3).Some? ==> r == LongestPrefixRegion(Upper(call.value), 3).value
  {
    if !Truthy(call) then "Unknown"
    else
      var c := Upper(call.value);
      var g := LongestPrefixRegion(c, 3);
      if g.Some? then
        ghost var l :| 1 <= l <= 3 && g == RegionOf(Prefix(c, l));
        g.value
      else Prefix(c, 2)
  }

  /** The region of a known prefix, of a callsign whose portable suffix is
      kept (the three-character prefix is still VK2), and of an unknown
      prefix, which shows its first two upper-cased characters. */
  lemma RegionExamples()
    ensures GetRegionFromCall(Some("aa1xyz")) == "USA"
    ensures GetRegionFromCall(Some("VK2ABC/P")) == "Australia"
    ensures GetRegionFromCall(Some("xx9")) == "XX"
  {
    assert Upper("aa1xyz") == "AA1XYZ";
    assert Prefix("AA1XYZ", 3) == "AA1" && Prefix("AA1XYZ", 2) == "AA";
    assert RegionOf("AA1") == None && RegionOf("AA") == Some("USA");
    assert Upper("VK2ABC/P") == "VK2ABC/P";
    assert Prefix("VK2ABC/P", 3) == "VK2" && Prefix("VK2ABC/P", 2) == "VK";
    assert RegionOf("VK2") == None && RegionOf("VK") == Some("Australia");
    assert Upper("xx9") == "XX9";
    assert Prefix("XX9", 3) == "XX9" && Prefix("XX9", 2) == "XX" && Prefix("XX9", 1) == "X";
    assert RegionOf("XX9") == None && RegionOf("XX") == None && RegionOf("X") == None;
  }
}
