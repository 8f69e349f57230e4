/**
 * ComplianceHistoryView's row derivations: the placeholder history shown
 * while none exists, the risk-level badge, the score colour and the date
 * column with its `formatDate` fallback.
 */
module ComplianceHistory {
  import opened Wrappers
  import opened AuditTypes
  import opened Dates
  import opened RiskChart

  /**
   * The two placeholder rows. Their results carry only score, level and
   * metadata; the missing issue list is read as empty.
   */
  function Placeholders(nowIso: string): seq<Session> {
    [Session("AUD-83921", nowIso, "sales_call_john_doe.mp3", None,
             Some(Results(Some(68), Some(HIGH), None,
                          Some(Metadata("John Agent", "Alice Smith", "08:24", "Life", "28/12/2025")), [], None)),
             Completed),
     Session("AUD-83920", nowIso, "interaction_premium_plus.mp3", None,
             Some(Results(Some(12), Some("Low"), None,
                          Some(Metadata("Sarah Sales", "Bob Brown", "12:15", "Direct", "27/12/2025")), [], None)),
             Completed)]
  }

  /** `displayHistory`: the real history, or the placeholders when it is empty. */
  function DisplayHistory(history: seq<Session>, nowIso: string): (r: seq<Session>)
    ensures |history| > 0 ==> r == history
    ensures |history| == 0 ==> |r| == 2 && r[0].id == "AUD-83921" && r[1].id == "AUD-83920"
    ensures |history| == 0 ==> ScoreOrZero(r[0]) == 68 && ScoreOrZero(r[1]) == 12
    ensures |history| == 0 ==>
      r[0].filename == "sales_call_john_doe.mp3" && r[1].filename == "interaction_premium_plus.mp3" &&
      r[0].status == Completed && r[1].status == Completed
    ensures |history| == 0 ==>
      r[0].results.Some? && r[1].results.Some? &&
      LevelBand(r[0].results.value.riskLevel) == Red && LevelBand(r[1].results.value.riskLevel) == Green
    ensures |history| == 0 ==>
      CallDateOrEmpty(r[0]) == "28/12/2025" && CallDateOrEmpty(r[1]) == "27/12/2025"
  {
    if |history| > 0 then history else Placeholders(nowIso)
  }

  /** The risk-level badge: red for "High", orange for "Medium", green for anything else. */
  function LevelBand(level: Option<string>): (r: Band)
    ensures r == Red <==> level == Some(HIGH)
    ensures r == Orange <==> level == Some(MEDIUM)
  {
    if level == Some(HIGH) then Red else if level == Some(MEDIUM) then Orange else Green
  }

  function BadgeBand(s: Session): Band {
    LevelBand(if s.results.Some? then s.results.value.riskLevel else None)
  }

  /** The score column's colour: the score-number thresholds applied to `riskScore || 0`. */
  function ScoreBand(s: Session): (r: Band)
    ensures r == Red <==> ScoreOrZero(s) > 60
    ensures r == Green <==> ScoreOrZero(s) <= 30
  {
    ThresholdBand(ScoreOrZero(s))
  }

  /** The date column: `callDate` when non-empty, else the timestamp's local date as DD/MM/YYYY. */
  function DateColumn(s: Session, timestampLocal: CivilDate): (r: string)
    requires ValidDate(timestampLocal)
    ensures CallDateOrEmpty(s) != "" ==> r == CallDateOrEmpty(s)
    ensures CallDateOrEmpty(s) == "" ==> r == FormatDate(timestampLocal) && ParseDate(r) == timestampLocal
  {
    ParseFormatDate(timestampLocal);
    if CallDateOrEmpty(s) != "" then CallDateOrEmpty(s) else FormatDate(timestampLocal)
  }

  /** The level a report carries and the band its score falls in need not agree. */
  lemma LevelAndScoreMayDisagree()
    ensures var s := Session("AUD-X", "", "", None, Some(Results(Some(45), Some("Low"), None, None, [], None)), Completed);
      BadgeBand(s) == Green && ScoreBand(s) == Orange
  {
  }
}
