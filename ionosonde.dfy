/** The colour and band label shown for an ionosonde's maximum usable
    frequency (MUF, in MHz). */
module Ionosonde {
  import opened Bands

  /** The label of each MUF step, lowest first. */
  const MUF_LABELS: seq<string> := ["160m", "80m", "40m", "30m", "20m", "17m", "15m", "12m", "10m+"]

  /** The MUF at which each step above the lowest begins, ascending. */
  const MUF_THRESHOLDS: seq<real> := [3.5, 7.0, 10.1, 14.0, 18.068, 21.0, 24.89, 28.0]

  function GetMufColor(mufd: real): (r: string)
    ensures r in {"#8b5cf6", "#3b82f6", "#06b6d4", "#14b8a6", "#22c55e", "#84cc16", "#eab308", "#f97316", "#ef4444"}
  {
    if mufd >= 28.0 then "#8b5cf6"
    else if mufd >= 24.89 then "#3b82f6"
    else if mufd >= 21.0 then "#06b6d4"
    else if mufd >= 18.068 then "#14b8a6"
    else if mufd >= 14.0 then "#22c55e"
    else if mufd >= 10.1 then "#84cc16"
    else if mufd >= 7.0 then "#eab308"
    else if mufd >= 3.5 then "#f97316"
    else "#ef4444"
  }

  function GetMufBand(mufd: real): (r: string)
    ensures r in MUF_LABELS
  {
    if mufd >= 28.0 then "10m+"
    else if mufd >= 24.89 then "12m"
    else if mufd >= 21.0 then "15m"
    else if mufd >= 18.068 then "17m"
    else if mufd >= 14.0 then "20m"
    else if mufd >= 10.1 then "30m"
    else if mufd >= 7.0 then "40m"
    else if mufd >= 3.5 then "80m"
    else "160m"
  }

  /** How many of the thresholds `ts` lie at or below `mufd`. */
  function CountReached(ts: seq<real>, mufd: real): (n: nat)
    ensures n <= |ts|
  {
    if ts == [] then 0
    else (if ts[0] <= mufd then 1 else 0) + CountReached(ts[1..], mufd)
  }

  /** The step a MUF reaches: the number of thresholds it meets or exceeds. */
  function MufRank(mufd: real): (k: nat)
    ensures k < |MUF_LABELS|
  {
    CountReached(MUF_THRESHOLDS, mufd)
  }

  /** Reaching more of the thresholds never happens at a lower MUF. */
  lemma {:induction false} CountReachedMonotone(ts: seq<real>, a: real, b: real)
    requires a <= b
    ensures CountReached(ts, a) <= CountReached(ts, b)
  {
    if ts != [] {
      CountReachedMonotone(ts[1..], a, b);
    }
  }

  /** The rank, counted threshold by threshold. */
  lemma {:induction false} MufRankSteps(mufd: real)
    ensures MufRank(mufd) ==
      (if mufd >= 3.5 then 1 else 0) + (if mufd >= 7.0 then 1 else 0) + (if mufd >= 10.1 then 1 else 0) +
      (if mufd >= 14.0 then 1 else 0) + (if mufd >= 18.068 then 1 else 0) + (if mufd >= 21.0 then 1 else 0) +
      (if mufd >= 24.89 then 1 else 0) + (if mufd >= 28.0 then 1 else 0)
  {
    var t := MUF_THRESHOLDS;
    assert CountReached(t[8..], mufd) == 0;
    assert CountReached(t[7..], mufd) == (if mufd >= 28.0 then 1 else 0) by { assert t[7..][1..] == t[8..]; }
    assert CountReached(t[6..], mufd) == (if mufd >= 24.89 then 1 else 0) + CountReached(t[7..], mufd) by { assert t[6..][1..] == t[7..]; }
    assert CountReached(t[5..], mufd) == (if mufd >= 21.0 then 1 else 0) + CountReached(t[6..], mufd) by { assert t[5..][1..] == t[6..]; }
    assert CountReached(t[4..], mufd) == (if mufd >= 18.068 then 1 else 0) + CountReached(t[5..], mufd) by { assert t[4..][1..] == t[5..]; }
    assert CountReached(t[3..], mufd) == (if mufd >= 14.0 then 1 else 0) + CountReached(t[4..], mufd) by { assert t[3..][1..] == t[4..]; }
    assert CountReached(t[2..], mufd) == (if mufd >= 10.1 then 1 else 0) + CountReached(t[3..], mufd) by { assert t[2..][1..] == t[3..]; }
    assert CountReached(t[1..], mufd) == (if mufd >= 7.0 then 1 else 0) + CountReached(t[2..], mufd) by { assert t[1..][1..] == t[2..]; }
    assert CountReached(t, mufd) == (if mufd >= 3.5 then 1 else 0) + CountReached(t[1..], mufd);
  }

  /** The label chain picks the step of the thresholds table. */
  lemma MufBandIsRank(mufd: real)
    ensures GetMufBand(mufd) == MUF_LABELS[MufRank(mufd)]
  {
    MufRankSteps(mufd);
  }

  /** A larger MUF never yields a lower band. */
  lemma MufBandMonotone(a: real, b: real)
    requires a <= b
    ensures MufRank(a) <= MufRank(b)
    ensures GetMufBand(a) == MUF_LABELS[MufRank(a)] && GetMufBand(b) == MUF_LABELS[MufRank(b)]
  {
    CountReachedMonotone(MUF_THRESHOLDS, a, b);
    MufBandIsRank(a);
    MufBandIsRank(b);
  }

  /** The colour is the colour of the band the label names, so it is a
      function of the label. */
  lemma MufColorIsBandColor(mufd: real)
    ensures GetMufColor(mufd) == BANDS[MufRank(mufd)].color
  {
    MufRankSteps(mufd);
  }

  lemma MufColorFollowsLabel(a: real, b: real)
    requires GetMufBand(a) == GetMufBand(b)
    ensures GetMufColor(a) == GetMufColor(b)
  {
    MufBandIsRank(a);
    MufBandIsRank(b);
    MufColorIsBandColor(a);
    MufColorIsBandColor(b);
    LabelsDistinct(MufRank(a), MufRank(b));
  }

  /** No two steps share a label. */
  lemma LabelsDistinct(i: nat, j: nat)
    requires i < |MUF_LABELS| && j < |MUF_LABELS| && MUF_LABELS[i] == MUF_LABELS[j]
    ensures i == j
  {
  }

  /** Each threshold is the lower band edge, in MHz, of the band whose label
      it starts, and each label other than the top one is that band's name. */
  lemma ThresholdsAreBandEdges()
    ensures forall k :: 0 <= k < |MUF_THRESHOLDS| ==> MUF_THRESHOLDS[k] == BANDS[k + 1].min as real / 1000.0
    ensures forall k :: 0 <= k < |MUF_LABELS| - 1 ==> MUF_LABELS[k] == BANDS[k].name
  {
  }
}
