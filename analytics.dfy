/**
 * The `stats` card values of AnalyticsDashboardView, with their literal
 * fallbacks. A session without results or without a score counts as 0.
 */
module Analytics {
  import opened AuditTypes

  datatype Stats = Stats(totalAudits: int, avgScore: int, criticalCases: int, complianceRate: string)

  /** `history.reduce((acc, s) => acc + (s.results?.riskScore || 0), 0)`. */
  function TotalScore(history: seq<Session>): (r: int)
    ensures (forall i :: 0 <= i < |history| ==> 0 <= ScoreOrZero(history[i]) <= 100) ==> 0 <= r <= 100 * |history|
  {
    if history == [] then 0
    else
      assert forall i :: 0 <= i < |history[1..]| ==> history[1..][i] == history[i + 1];
      ScoreOrZero(history[0]) + TotalScore(history[1..])
  }

  /** `history.filter(s => (s.results?.riskScore || 0) > 60).length`. */
  function CriticalCount(history: seq<Session>): (r: nat)
    ensures r <= |history|
  {
    if history == [] then 0 else (if ScoreOrZero(history[0]) > 60 then 1 else 0) + CriticalCount(history[1..])
  }

  /** `Math.round(num / den)`: the nearest integer, halves rounded up. */
  function RoundHalfUp(num: int, den: int): (r: int)
    requires den > 0
    ensures 2 * den * r - den <= 2 * num < 2 * den * r + den
  {
    var r := (2 * num + den) / (2 * den);
    assert 2 * den * r <= 2 * num + den < 2 * den * r + 2 * den;
    r
  }

  function ComputeStats(history: seq<Session>): (r: Stats)
    ensures r.totalAudits == if |history| == 0 then 124 else |history|
    ensures |history| == 0 ==> r.avgScore == 24
    ensures |history| > 0 ==>
      2 * |history| * r.avgScore - |history| <= 2 * TotalScore(history) < 2 * |history| * r.avgScore + |history|
    ensures r.criticalCases == if CriticalCount(history) == 0 then 3 else CriticalCount(history)
    ensures r.complianceRate == "92%"
  {
    Stats(if |history| == 0 then 124 else |history|,
          if |history| == 0 then 24 else RoundHalfUp(TotalScore(history), |history|),
          if CriticalCount(history) == 0 then 3 else CriticalCount(history),
          "92%")
  }

  /** The critical count is zero exactly when no session scores above 60. */
  lemma {:induction false} CriticalCountZeroIff(history: seq<Session>)
    ensures CriticalCount(history) == 0 <==> forall i :: 0 <= i < |history| ==> ScoreOrZero(history[i]) <= 60
  {
    if history != [] {
      CriticalCountZeroIff(history[1..]);
      assert forall i :: 1 <= i < |history| ==> history[i] == history[1..][i - 1];
    }
  }

  /** So the card reads 3 either from the fallback or from exactly three critical sessions. */
  lemma CriticalFallback(history: seq<Session>)
    requires forall i :: 0 <= i < |history| ==> ScoreOrZero(history[i]) <= 60
    ensures ComputeStats(history).criticalCases == 3
  {
    CriticalCountZeroIff(history);
  }

  /** With every score in 0..100 the average card also lies in 0..100. */
  lemma AverageInRange(history: seq<Session>)
    requires |history| > 0
    requires forall i :: 0 <= i < |history| ==> 0 <= ScoreOrZero(history[i]) <= 100
    ensures 0 <= ComputeStats(history).avgScore <= 100
  {
  }
}
