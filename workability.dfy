/** The workability decision for one band of one station: whether an
    antenna is available, whether the station lies in the band's skip zone,
    how the spots' SNR and the nearby-spotter and zone evidence grade it,
    how the band-condition grade degrades it, and the explanation shown
    for it. */
module Workability {
  import opened Common
  import opened Bands
  import opened Antennas

  datatype Status = Should | Might | Unlikely | Unavailable

  /** Order of preference: should > might > unlikely > unavailable. */
  function Rank(s: Status): nat
  {
    match s
    case Should => 3
    case Might => 2
    case Unlikely => 1
    case Unavailable => 0
  }

  /** The skip-zone test: the distance lies in the band's skip zone, unless
      an NVIS antenna covers it (an NVIS-capable band, at most 500 km). */
  function SkipZoneApplies(band: Band, antenna: Antenna, distance: real): (r: bool)
    ensures r <==> band.skipZone.min as real <= distance <= band.skipZone.max as real &&
                   !(antenna.nvis && band.nvisCapable && distance <= 500.0)
  {
    if band.skipZone.min as real <= distance <= band.skipZone.max as real then
      var nvisCoverage := antenna.nvis && band.nvisCapable && distance <= 500.0;
      if nvisCoverage then false
      else if antenna.standard then true
      else true
    else false
  }

  /** The grade before band conditions: in the skip zone unlikely;
      otherwise, with a nearby spotter or a zone, should from 10 dB and
      might above 5 dB; otherwise unlikely. */
  function BaseStatus(inSkipZone: bool, relevant: bool, bestSnr: int): (s: Status)
    ensures s != Unavailable
    ensures s == Should <==> !inSkipZone && relevant && bestSnr >= 10
    ensures s == Might <==> !inSkipZone && relevant && 5 < bestSnr < 10
  {
    if inSkipZone then Unlikely
    else if relevant && bestSnr >= 10 then Should
    else if relevant && bestSnr > 5 then Might
    else Unlikely
  }

  /** The status after the band-condition grade, whether the grade
      degraded it, and the grade recorded for the band. */
  datatype Graded = Graded(status: Status, degraded: bool, bandCondition: Option<string>)

  /** A present grade is always recorded. "poor" turns should into might;
      any grade other than good or fair (compared case-insensitively),
      including "poor" on a band that is not should, makes it unlikely;
      good and fair leave it as it is. */
  function ApplyConditions(status: Status, condition: Option<string>): (g: Graded)
    ensures !Truthy(condition) ==> g == Graded(status, false, None)
    ensures Truthy(condition) ==> g.bandCondition == condition
  {
    if !Truthy(condition) then Graded(status, false, None)
    else
      var lower := Lower(condition.value);
      if lower == "poor" && status == Should then Graded(Might, true, condition)
      else if lower != "good" && lower != "fair" then Graded(Unlikely, true, condition)
      else Graded(status, false, condition)
  }

  /** Band conditions never improve a status; exactly the grades other
      than good and fair degrade it; "poor" lowers it by one step (should
      to might, might to unlikely); every worse grade makes it unlikely. */
  lemma ConditionsNeverPromote(status: Status, condition: Option<string>)
    requires status != Unavailable
    ensures Rank(ApplyConditions(status, condition).status) <= Rank(status)
    ensures ApplyConditions(status, condition).degraded <==>
      Truthy(condition) && Lower(condition.value) != "good" && Lower(condition.value) != "fair"
    ensures Truthy(condition) && Lower(condition.value) == "poor" ==>
      ApplyConditions(status, condition).status == (if status == Should then Might else Unlikely)
    ensures (Truthy(condition) && Lower(condition.value) != "poor" && Lower(condition.value) != "good" &&
             Lower(condition.value) != "fair") ==> ApplyConditions(status, condition).status == Unlikely
  {
  }

  /** Only the lower-cased grade matters. */
  lemma {:induction false} ConditionsCaseInsensitive(status: Status, a: string, b: string)
    requires a != "" && b != "" && Lower(a) == Lower(b)
    ensures ApplyConditions(status, Some(a)).status == ApplyConditions(status, Some(b)).status
    ensures ApplyConditions(status, Some(a)).degraded == ApplyConditions(status, Some(b)).degraded
  {
  }

  /** What the classifier decides for one band of one station. */
  datatype Verdict = Verdict(status: Status, noAntenna: bool, inSkipZone: bool, degraded: bool, bandCondition: Option<string>)

  /** The decision for a band: without an antenna unavailable; otherwise
      the skip-zone test, the grade from the evidence and the band
      condition. */
  function ClassifyBand(band: Band, antenna: Antenna, distance: real, relevant: bool, bestSnr: int,
                        condition: Option<string>): (v: Verdict)
    ensures v.status == Unavailable <==> !antenna.standard && !antenna.nvis
    ensures v.noAntenna <==> !antenna.standard && !antenna.nvis
    ensures v.noAntenna ==> !v.inSkipZone && !v.degraded && v.bandCondition.None?
    ensures !v.noAntenna ==> v.inSkipZone == SkipZoneApplies(band, antenna, distance)
    ensures v.inSkipZone ==> v.status == Unlikely
    ensures v.status == Should ==> relevant && bestSnr >= 10 && !v.inSkipZone
    ensures v.status == Might ==> relevant && bestSnr > 5 && !v.inSkipZone
    ensures !v.noAntenna && Truthy(condition) ==> v.bandCondition == condition
    ensures !v.noAntenna ==>
      var g := ApplyConditions(BaseStatus(v.inSkipZone, relevant, bestSnr), condition);
      v.status == g.status && v.degraded == g.degraded && v.bandCondition == g.bandCondition
  {
    if !antenna.standard && !antenna.nvis then Verdict(Unavailable, true, false, false, None)
    else
      var inSkip := SkipZoneApplies(band, antenna, distance);
      var g := ApplyConditions(BaseStatus(inSkip, relevant, bestSnr), condition);
      Verdict(g.status, false, inSkip, g.degraded, g.bandCondition)
  }

  /** With an antenna and a good or fair (or no) grade, the status is the
      grade from the evidence alone. */
  lemma GoodConditionsKeepBase(band: Band, antenna: Antenna, distance: real, relevant: bool, bestSnr: int, condition: Option<string>)
    requires antenna.standard || antenna.nvis
    requires !Truthy(condition) || Lower(condition.value) == "good" || Lower(condition.value) == "fair"
    ensures ClassifyBand(band, antenna, distance, relevant, bestSnr, condition).status ==
            BaseStatus(SkipZoneApplies(band, antenna, distance), relevant, bestSnr)
  {
  }

  datatype FactorKind = SnrFactor | NearbyFactor | ZoneFactor | ConditionsFactor | SkipZoneFactor | AntennaFactor

  /** Where each kind of factor goes in the list. */
  function Position(k: FactorKind): nat
  {
    match k
    case SnrFactor => 0
    case NearbyFactor => 1
    case ZoneFactor => 2
    case ConditionsFactor => 3
    case SkipZoneFactor => 4
    case AntennaFactor => 5
  }

  /** One line of the explanation: what it is about and whether it counts
      in favour. */
  datatype Factor = Factor(kind: FactorKind, positive: bool)

  /** The headline reason. */
  datatype Primary =
    | NoAntennaReason
    | SkipZoneReason
    | ConditionsReason(condition: Option<string>)
    | WeakSignal(snr: int)
    | NoNearbySpotters
    | NearbySpotter(call: string)
    | SnrReason(snr: int)

  /** What the explanation is built from: the band's figures and verdict. */
  datatype BandFacts = BandFacts(bestSnr: int, hasNearbySpot: bool, nearbyCall: Option<string>, inZone: bool, verdict: Verdict)

  function Optional(present: bool, f: Factor): (r: seq<Factor>)
    ensures present ==> r == [f]
    ensures !present ==> r == []
  {
    if present then [f] else []
  }

  /** The factor list: SNR, the nearby-spotter line, then zone, band
      conditions, skip zone and antenna when they apply. */
  function Factors(b: BandFacts): (r: seq<Factor>)
    ensures |r| >= 2 && r[0].kind == SnrFactor && r[1].kind == NearbyFactor
    ensures forall i, j :: 0 <= i < j < |r| ==> Position(r[i].kind) < Position(r[j].kind)
  {
    var v := b.verdict;
    [Factor(SnrFactor, b.bestSnr >= 10),
     Factor(NearbyFactor, b.hasNearbySpot && Truthy(b.nearbyCall))] +
    Optional(b.inZone, Factor(ZoneFactor, true)) +
    Optional(Truthy(v.bandCondition),
             Factor(ConditionsFactor, Truthy(v.bandCondition) &&
                                      (Lower(v.bandCondition.value) == "good" || Lower(v.bandCondition.value) == "fair"))) +
    Optional(v.inSkipZone, Factor(SkipZoneFactor, false)) +
    Optional(v.noAntenna, Factor(AntennaFactor, false))
  }

  /** The shape of the factor list: the SNR line first, in favour exactly
      from 10 dB; exactly one nearby-spotter line, in favour exactly when a
      nearby spotter is named; and a zone, band-condition, skip-zone or
      antenna line exactly when that applies, each at most once. */
  lemma FactorsShape(b: BandFacts)
    ensures var r := Factors(b);
      r[0].positive == (b.bestSnr >= 10) &&
      r[1].positive == (b.hasNearbySpot && Truthy(b.nearbyCall)) &&
      (forall i :: 0 <= i < |r| && r[i].kind == NearbyFactor ==> i == 1) &&
      ((exists i :: 0 <= i < |r| && r[i].kind == ZoneFactor) <==> b.inZone) &&
      ((exists i :: 0 <= i < |r| && r[i].kind == ConditionsFactor) <==> Truthy(b.verdict.bandCondition))
  {
    var r := Factors(b);
    if b.inZone {
      assert r[2].kind == ZoneFactor;
    }
    if Truthy(b.verdict.bandCondition) {
      assert r[|r| - 1 - (if b.verdict.noAntenna then 1 else 0) - (if b.verdict.inSkipZone then 1 else 0)].kind == ConditionsFactor;
    }
  }

  /** The trailing lines: a skip-zone line exactly when the path is in the
      skip zone, and an antenna line exactly when there is no antenna. */
  lemma FactorsWarnings(b: BandFacts)
    ensures var r := Factors(b);
      ((exists i :: 0 <= i < |r| && r[i].kind == SkipZoneFactor) <==> b.verdict.inSkipZone) &&
      ((exists i :: 0 <= i < |r| && r[i].kind == AntennaFactor) <==> b.verdict.noAntenna)
  {
    var r := Factors(b);
    if b.verdict.inSkipZone {
      assert r[|r| - 1 - (if b.verdict.noAntenna then 1 else 0)].kind == SkipZoneFactor;
    }
    if b.verdict.noAntenna {
      assert r[|r| - 1].kind == AntennaFactor;
    }
  }

  /** No antenna, skip-zone or band-condition headline applies. */
  predicate Undisputed(v: Verdict)
  {
    !v.noAntenna && !v.inSkipZone && !v.degraded
  }

  /** The headline, by priority: no antenna, skip zone, degraded by
      conditions, an unlikely band's weak signal, an unlikely band with no
      evidence, the nearby spotter, else the SNR. Each headline is given
      exactly when its own test holds and every earlier one fails. */
  function PrimaryReason(b: BandFacts): (p: Primary)
    ensures p == NoAntennaReason <==> b.verdict.noAntenna
    ensures p == SkipZoneReason <==> !b.verdict.noAntenna && b.verdict.inSkipZone
    ensures p.ConditionsReason? <==> !b.verdict.noAntenna && !b.verdict.inSkipZone && b.verdict.degraded
    ensures p.ConditionsReason? ==> p.condition == b.verdict.bandCondition
    ensures p.WeakSignal? <==> Undisputed(b.verdict) && b.verdict.status == Unlikely && b.bestSnr < 5
    ensures p == NoNearbySpotters <==>
      Undisputed(b.verdict) && b.verdict.status == Unlikely && b.bestSnr >= 5 && !b.hasNearbySpot && !b.inZone
    ensures p.NearbySpotter? <==>
      Undisputed(b.verdict) && !(b.verdict.status == Unlikely && (b.bestSnr < 5 || (!b.hasNearbySpot && !b.inZone))) &&
      b.hasNearbySpot && Truthy(b.nearbyCall)
    ensures p.NearbySpotter? ==> b.nearbyCall == Some(p.call) && p.call != ""
    ensures p.WeakSignal? || p.SnrReason? ==> p.snr == b.bestSnr
  {
    var v := b.verdict;
    if v.noAntenna then NoAntennaReason
    else if v.inSkipZone then SkipZoneReason
    else if v.degraded then ConditionsReason(v.bandCondition)
    else if v.status == Unlikely && b.bestSnr < 5 then WeakSignal(b.bestSnr)
    else if v.status == Unlikely && !b.hasNearbySpot && !b.inZone then NoNearbySpotters
    else if b.hasNearbySpot && Truthy(b.nearbyCall) then NearbySpotter(b.nearbyCall.value)
    else SnrReason(b.bestSnr)
  }

  /** A headline that names evidence is never given to a band that has
      none: a band unlikely for lack of a nearby spotter or zone, with at
      least 5 dB and not degraded or in the skip zone, is always told so. */
  lemma NoEvidenceHeadline(b: BandFacts)
    requires !b.verdict.noAntenna && !b.verdict.inSkipZone && !b.verdict.degraded
    requires b.verdict.status == Unlikely && b.bestSnr >= 5 && !b.hasNearbySpot && !b.inZone
    ensures PrimaryReason(b) == NoNearbySpotters
  {
  }
}
