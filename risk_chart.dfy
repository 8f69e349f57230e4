/**
 * RiskChart's two colourings of a risk score: the gauge (`getColor`) and
 * the number under it. The number's thresholds are also the ones the
 * history table colours its score column with. Scores are integers.
 */
module RiskChart {
  import opened Wrappers

  datatype Band = Green | Orange | Red

  /** Severity order of the bands. */
  function Rank(b: Band): nat {
    match b
    case Green => 0
    case Orange => 1
    case Red => 2
  }

  /** `getColor`: green below 30, orange below 60, red from 60 on. */
  function GaugeBand(score: int): (r: Band)
    ensures r == Green <==> score < 30
    ensures r == Orange <==> 30 <= score < 60
    ensures r == Red <==> score >= 60
  {
    if score < 30 then Green else if score < 60 then Orange else Red
  }

  /** `score > 60 ? red : score > 30 ? orange : green`. */
  function ThresholdBand(score: int): (r: Band)
    ensures r == Green <==> score <= 30
    ensures r == Orange <==> 30 < score <= 60
    ensures r == Red <==> score > 60
  {
    if score > 60 then Red else if score > 30 then Orange else Green
  }

  /** A higher score never gets a milder gauge colour. */
  lemma GaugeBandMonotone(s: int, t: int)
    requires s <= t
    ensures Rank(GaugeBand(s)) <= Rank(GaugeBand(t))
  {
  }

  /** A higher score never gets a milder number colour. */
  lemma ThresholdBandMonotone(s: int, t: int)
    requires s <= t
    ensures Rank(ThresholdBand(s)) <= Rank(ThresholdBand(t))
  {
  }

  /** The two colourings differ exactly at 30 and 60, where the gauge is one band more severe. */
  lemma BandsDisagreeAtBoundaries(score: int)
    ensures GaugeBand(score) != ThresholdBand(score) <==> score == 30 || score == 60
    ensures Rank(ThresholdBand(score)) <= Rank(GaugeBand(score)) <= Rank(ThresholdBand(score)) + 1
    ensures score == 30 ==> GaugeBand(score) == Orange && ThresholdBand(score) == Green
    ensures score == 60 ==> GaugeBand(score) == Red && ThresholdBand(score) == Orange
  {
  }

  /**
   * The gauge colour and the number colour for `results.riskScore`, which
   * the report may lack: a missing score fails every comparison, so the
   * gauge falls through to red while the number stays green.
   */
  function ChartBands(score: Option<int>): (r: (Band, Band))
    ensures score.Some? ==> r == (GaugeBand(score.value), ThresholdBand(score.value))
    ensures score.None? ==> r == (Red, Green)
  {
    match score
    case Some(s) => (GaugeBand(s), ThresholdBand(s))
    case None => (Red, Green)
  }

  datatype Slice = Slice(name: string, value: int)

  /** The two gauge slices `[score, 100 - score]`; together they fill the gauge. */
  function GaugeData(score: int): (r: seq<Slice>)
    ensures |r| == 2 && r[0].value == score && r[0].value + r[1].value == 100
    ensures r[0].name == "Risk" && r[1].name == "Safe"
  {
    [Slice("Risk", score), Slice("Safe", 100 - score)]
  }
}
