/** The per-band antenna settings restored at start-up: the saved settings
    as they are, the old single-choice format converted to a pair of flags
    per band, or, with nothing saved, no antenna on any band. */
module Antennas {
  import opened Common
  import opened Bands

  /** What the station can use on a band: a standard (low-angle) antenna
      and/or a near-vertical-incidence one. */
  datatype Antenna = Antenna(standard: bool, nvis: bool)

  const NO_ANTENNA: Antenna := Antenna(false, false)

  /** A saved per-band value: the old format's single choice ("lowAngle",
      "nvis", "both" or "none") or the current pair of flags. */
  datatype SavedValue = Legacy(choice: string) | Flags(antenna: Antenna)

  /** A settings object as its entries in key order (keys are unique). */
  type Settings = seq<(string, SavedValue)>

  /** The value saved under `name`. */
  function Lookup(s: Settings, name: string): (r: Option<SavedValue>)
    ensures r.None? <==> forall i :: 0 <= i < |s| ==> s[i].0 != name
    ensures r.Some? ==> exists i :: 0 <= i < |s| && s[i] == (name, r.value)
  {
    if s == [] then None
    else if s[0].0 == name then Some(s[0].1)
    else Lookup(s[1..], name)
  }

  /** `antennaByBand[name] || { standard: false, nvis: false }`: a band
      without a saved pair of flags has no antenna. */
  function AntennaFor(s: Settings, name: string): (a: Antenna)
    ensures Lookup(s, name).Some? && Lookup(s, name).value.Flags? ==> a == Lookup(s, name).value.antenna
    ensures !(Lookup(s, name).Some? && Lookup(s, name).value.Flags?) ==> a == NO_ANTENNA
  {
    match Lookup(s, name)
    case Some(Flags(a)) => a
    case _ => NO_ANTENNA
  }

  /** The old choice saved for a band, `saved[name] || 'none'`: a missing
      or empty entry reads as "none"; an entry already in the new format
      matches none of the old choices. */
  function LegacyChoice(v: Option<SavedValue>): (c: Option<string>)
  {
    match v
    case Some(Legacy(choice)) => if choice != "" then Some(choice) else Some("none")
    case Some(Flags(_)) => None
    case None => Some("none")
  }

  /** The flags an old choice converts to. */
  function Convert(c: Option<string>): (a: Antenna)
    ensures a.standard <==> c == Some("lowAngle") || c == Some("both")
    ensures a.nvis <==> c == Some("nvis") || c == Some("both")
  {
    Antenna(c == Some("lowAngle") || c == Some("both"), c == Some("nvis") || c == Some("both"))
  }

  /** One entry per band of the table, in table order. */
  function PerBand(f: Band -> Antenna): (r: Settings)
    ensures |r| == |BANDS| && forall i :: 0 <= i < |BANDS| ==> r[i] == (BANDS[i].name, Flags(f(BANDS[i])))
  {
    seq(|BANDS|, i requires 0 <= i < |BANDS| => (BANDS[i].name, Flags(f(BANDS[i]))))
  }

  /** The settings are in the old format when their first value is a string. */
  predicate IsLegacy(s: Settings)
  {
    |s| > 0 && s[0].1.Legacy?
  }

  /** The start-up antenna settings from the saved ones, if any. */
  function RestoreAntennas(saved: Option<Settings>): (r: Settings)
    ensures saved.Some? && !IsLegacy(saved.value) ==> r == saved.value
  {
    if saved.None? then PerBand(b => NO_ANTENNA)
    else if IsLegacy(saved.value) then PerBand((b: Band) => Convert(LegacyChoice(Lookup(saved.value, b.name))))
    else saved.value
  }

  /** The entry built for a band is the one found for its name. */
  lemma {:induction false} PerBandLookup(f: Band -> Antenna, i: nat)
    requires i < |BANDS|
    ensures Lookup(PerBand(f), BANDS[i].name) == Some(Flags(f(BANDS[i])))
  {
    BandNamesDistinct();
    var r := PerBand(f);
    var j := 0;
    while j < i
      invariant 0 <= j <= i
      invariant Lookup(r, BANDS[i].name) == Lookup(r[j..], BANDS[i].name)
    {
      assert r[j..][0] == r[j];
      assert r[j..][1..] == r[j + 1..];
      j := j + 1;
    }
    assert r[i..][0] == r[i];
  }

  /** With nothing saved, no band has an antenna. */
  lemma NothingSavedNoAntenna(name: string)
    ensures AntennaFor(RestoreAntennas(None), name) == NO_ANTENNA
  {
    var r := RestoreAntennas(None);
    if Lookup(r, name).Some? {
      var i :| 0 <= i < |r| && r[i] == (name, Lookup(r, name).value);
      PerBandLookup(b => NO_ANTENNA, i);
    }
  }

  /** Old-format settings: each band of the table gets a standard antenna
      exactly when its saved choice was "lowAngle" or "both", and an NVIS
      antenna exactly when it was "nvis" or "both"; a missing or empty
      choice counts as "none". */
  lemma LegacyMigrated(saved: Settings, i: nat)
    requires IsLegacy(saved) && i < |BANDS|
    ensures var a := AntennaFor(RestoreAntennas(Some(saved)), BANDS[i].name);
      var v := Lookup(saved, BANDS[i].name);
      (a.standard <==> v == Some(Legacy("lowAngle")) || v == Some(Legacy("both"))) &&
      (a.nvis <==> v == Some(Legacy("nvis")) || v == Some(Legacy("both")))
  {
    PerBandLookup((b: Band) => Convert(LegacyChoice(Lookup(saved, b.name))), i);
    var v := Lookup(saved, BANDS[i].name);
    assert AntennaFor(RestoreAntennas(Some(saved)), BANDS[i].name) == Convert(LegacyChoice(v));
    assert LegacyChoice(v) == Some("lowAngle") <==> v == Some(Legacy("lowAngle"));
    assert LegacyChoice(v) == Some("nvis") <==> v == Some(Legacy("nvis"));
    assert LegacyChoice(v) == Some("both") <==> v == Some(Legacy("both"));
  }
}
