/**
 * The records of types.ts. Parsed analysis output is cast to these types
 * without a check, so every field the normalisation does not look at
 * (`riskScore`, `riskLevel`, `summary`, `metadata`, `transcript`) may be
 * missing and is an `Option`.
 */
module AuditTypes {
  import opened Wrappers

  datatype Status = Pending | Validated | Rejected

  /** `ComplianceIssue`; times are seconds into the recording. */
  datatype Issue = Issue(
    id: string,
    category: string,
    excerpt: string,
    explanation: string,
    confidence: real,
    status: Status,
    startTime: Option<real>,
    endTime: Option<real>,
    notes: Option<string>)

  datatype Speaker = Agent | Customer

  /** `TranscriptSegment`: `issueId` optionally points at an issue. */
  datatype TranscriptLine = TranscriptLine(
    speaker: Speaker,
    text: string,
    timestamp: Option<string>,
    issueId: Option<string>)

  datatype Metadata = Metadata(
    agentName: string,
    customerName: string,
    duration: string,
    department: string,
    callDate: string)

  /** `AuditResults`; `riskLevel` is whatever text the analysis returned. */
  datatype Results = Results(
    riskScore: Option<int>,
    riskLevel: Option<string>,
    summary: Option<string>,
    metadata: Option<Metadata>,
    issues: seq<Issue>,
    transcript: Option<seq<TranscriptLine>>)

  datatype SessionStatus = Uploading | Analyzing | Completed | Error

  /** `AuditSession`. */
  datatype Session = Session(
    id: string,
    timestamp: string,
    filename: string,
    audioUrl: Option<string>,
    results: Option<Results>,
    status: SessionStatus)

  const HIGH := "High"
  const MEDIUM := "Medium"

  /** `s.results?.riskScore || 0`: a missing result or score reads as 0. */
  function ScoreOrZero(s: Session): int {
    if s.results.Some? && s.results.value.riskScore.Some? then s.results.value.riskScore.value else 0
  }

  /** `s.results?.metadata?.callDate`, with a missing value read as empty. */
  function CallDateOrEmpty(s: Session): string {
    if s.results.Some? && s.results.value.metadata.Some? then s.results.value.metadata.value.callDate else ""
  }
}
