/** The amateur HF band table and the frequency-to-band lookup. Frequencies
    are in kHz, skip-zone distances in km. */
module Bands {
  import opened Common

  /** The distance range in which ground wave has faded and sky wave has not yet landed. */
  datatype SkipZone = SkipZone(min: int, max: int)

  datatype Band = Band(name: string, min: int, max: int, color: string, skipZone: SkipZone, nvisCapable: bool)

  const BANDS: seq<Band> := [
    Band("160m", 1800, 2000, "#ef4444", SkipZone(80, 600), true),
    Band("80m", 3500, 4000, "#f97316", SkipZone(50, 400), true),
    Band("40m", 7000, 7300, "#eab308", SkipZone(150, 800), true),
    Band("30m", 10100, 10150, "#84cc16", SkipZone(250, 1000), false),
    Band("20m", 14000, 14350, "#22c55e", SkipZone(400, 1500), false),
    Band("17m", 18068, 18168, "#14b8a6", SkipZone(500, 1800), false),
    Band("15m", 21000, 21450, "#06b6d4", SkipZone(600, 2000), false),
    Band("12m", 24890, 24990, "#3b82f6", SkipZone(800, 2300), false),
    Band("10m", 28000, 29700, "#8b5cf6", SkipZone(1000, 2500), false)
  ]

  /** Inclusive at both ends. */
  predicate Contains(b: Band, freq: real)
  {
    b.min as real <= freq <= b.max as real
  }

  /** `Array.prototype.find` over a band list: the first band containing `freq`. */
  function FindBand(bands: seq<Band>, freq: real): (r: Option<Band>)
    ensures r.None? <==> forall i :: 0 <= i < |bands| ==> !Contains(bands[i], freq)
    ensures r.Some? ==> exists i :: 0 <= i < |bands| && bands[i] == r.value && Contains(r.value, freq) &&
                                    forall j :: 0 <= j < i ==> !Contains(bands[j], freq)
  {
    if bands == [] then None
    else if Contains(bands[0], freq) then Some(bands[0])
    else
      var rest := FindBand(bands[1..], freq);
      if rest.Some? then
        ghost var i :| 0 <= i < |bands[1..]| && bands[1..][i] == rest.value && Contains(rest.value, freq) &&
                      forall j :: 0 <= j < i ==> !Contains(bands[1..][j], freq);
        assert bands[i + 1] == rest.value;
        rest
      else rest
  }

  /** The band whose range contains `freq`, or None outside every band. */
  function GetBandFromFreq(freq: real): (r: Option<Band>)
    ensures r.None? <==> forall i :: 0 <= i < |BANDS| ==> !Contains(BANDS[i], freq)
    ensures r.Some? ==> r.value in BANDS && Contains(r.value, freq)
    ensures r.Some? ==> forall i :: 0 <= i < |BANDS| && Contains(BANDS[i], freq) ==> BANDS[i] == r.value
  {
    var r := FindBand(BANDS, freq);
    BandsDisjoint();
    r
  }

  /** The table is sorted by frequency and no two ranges touch or overlap. */
  lemma BandsAscending()
    ensures forall i :: 0 <= i < |BANDS| ==> BANDS[i].min < BANDS[i].max
    ensures forall i :: 0 <= i < |BANDS| - 1 ==> BANDS[i].max < BANDS[i + 1].min
  {
  }

  /** Hence at most one band contains any given frequency. */
  lemma {:induction false} BandsDisjoint()
    ensures forall i, j :: 0 <= i < j < |BANDS| ==> BANDS[i].max < BANDS[j].min
    ensures forall i, j, f: real :: 0 <= i < |BANDS| && 0 <= j < |BANDS| && Contains(BANDS[i], f) && Contains(BANDS[j], f) ==> i == j
  {
    BandsAscending();
    forall i, j | 0 <= i < j < |BANDS|
      ensures BANDS[i].max < BANDS[j].min
    {
      var k := i + 1;
      while k < j
        invariant i + 1 <= k <= j
        invariant BANDS[i].max < BANDS[k].min
      {
        k := k + 1;
      }
    }
  }

  /** Every skip zone is a non-empty distance range. */
  lemma SkipZonesWellFormed()
    ensures forall i :: 0 <= i < |BANDS| ==> 0 <= BANDS[i].skipZone.min < BANDS[i].skipZone.max
  {
  }

  /** Near-vertical-incidence sky wave is possible on exactly 160 m, 80 m and 40 m. */
  lemma NvisBands()
    ensures forall i :: 0 <= i < |BANDS| ==> (BANDS[i].nvisCapable <==> BANDS[i].name in {"160m", "80m", "40m"})
  {
  }

  /** Band names are unique, so a name identifies its table entry. */
  lemma BandNamesDistinct()
    ensures forall i, j :: 0 <= i < j < |BANDS| ==> BANDS[i].name != BANDS[j].name
  {
  }
}
