/**
 * The local post-processing of geminiService.ts: the reply text (or `'{}'`
 * when it is empty) is parsed, every issue is stamped `pending`, and a
 * payload without an `issues` array fails. The remote call is not modelled;
 * `JSON.parse` is an abstract partial function passed in as `parse`.
 */
module GeminiService {
  import opened Wrappers
  import opened AuditTypes

  /** An issue as it comes out of the parser: any `status` it carried is kept as text. */
  datatype RawIssue = RawIssue(
    id: string,
    category: string,
    excerpt: string,
    explanation: string,
    confidence: real,
    status: Option<string>,
    startTime: Option<real>,
    endTime: Option<real>,
    notes: Option<string>)

  /** The parsed object; `issues` is `None` when absent or not an array. */
  datatype RawReport = RawReport(
    riskScore: Option<int>,
    riskLevel: Option<string>,
    summary: Option<string>,
    metadata: Option<Metadata>,
    issues: Option<seq<RawIssue>>,
    transcript: Option<seq<TranscriptLine>>)

  /** What `JSON.parse('{}')` yields: an object with none of the fields. */
  const EmptyObject := RawReport(None, None, None, None, None, None)

  datatype Channel = TextAnalysis | AudioAnalysis

  /** The message each entry point throws when post-processing fails. */
  function FailureMessage(c: Channel): string {
    match c
    case TextAnalysis => "Invalid response format from AI"
    case AudioAnalysis => "Invalid response format from AI audio analysis"
  }

  /** `{ ...i, status: 'pending' }`. */
  function StampPending(i: RawIssue): (r: Issue)
    ensures r.status == Pending
  {
    Issue(i.id, i.category, i.excerpt, i.explanation, i.confidence, Pending, i.startTime, i.endTime, i.notes)
  }

  /** The fields an issue had before stamping, given back its original status text. */
  function Unstamp(i: Issue, status: Option<string>): RawIssue {
    RawIssue(i.id, i.category, i.excerpt, i.explanation, i.confidence, status, i.startTime, i.endTime, i.notes)
  }

  /** Stamping only replaces the status: every other field survives. */
  lemma StampKeepsFields(i: RawIssue)
    ensures Unstamp(StampPending(i), i.status) == i
  {
  }

  /** `data.issues.map(...)`. */
  function StampAll(xs: seq<RawIssue>): (r: seq<Issue>)
    ensures |r| == |xs|
    ensures forall k :: 0 <= k < |r| ==> r[k].status == Pending && Unstamp(r[k], xs[k].status) == xs[k]
  {
    if xs == [] then [] else [StampPending(xs[0])] + StampAll(xs[1..])
  }

  /** `response.text || '{}'`. */
  function ResponseBody(text: Option<string>): (r: string)
    ensures text.Some? && text.value != "" ==> r == text.value
    ensures text.None? || text.value == "" ==> r == "{}"
  {
    if text.Some? && text.value != "" then text.value else "{}"
  }

  /**
   * The body of the `try` block: `None` for a parse failure, then the
   * issues check; everything but `issues` passes through untouched.
   */
  function Normalise(parsed: Option<RawReport>, c: Channel): (r: Result<Results, string>)
    ensures r.Failure? <==> parsed.None? || parsed.value.issues.None?
    ensures r.Failure? ==> r.error == FailureMessage(c)
    ensures r.Success? ==>
      var raw := parsed.value;
      |r.value.issues| == |raw.issues.value| &&
      (forall k :: 0 <= k < |r.value.issues| ==>
         r.value.issues[k].status == Pending && Unstamp(r.value.issues[k], raw.issues.value[k].status) == raw.issues.value[k]) &&
      r.value.riskScore == raw.riskScore && r.value.riskLevel == raw.riskLevel &&
      r.value.summary == raw.summary && r.value.metadata == raw.metadata &&
      r.value.transcript == raw.transcript
  {
    match parsed
    case None => Failure(FailureMessage(c))
    case Some(raw) =>
      match raw.issues
      case None => Failure(FailureMessage(c))
      case Some(xs) => Success(Results(raw.riskScore, raw.riskLevel, raw.summary, raw.metadata, StampAll(xs), raw.transcript))
  }

  /** `analyzeCallTranscript` / `analyzeAudioBuffer` after the remote call returned `text`. */
  function AnalyzeResponse(text: Option<string>, parse: string -> Option<RawReport>, c: Channel): (r: Result<Results, string>)
    ensures var parsed := parse(ResponseBody(text));
      (r.Failure? <==> parsed.None? || parsed.value.issues.None?) &&
      (r.Failure? ==> r.error == FailureMessage(c)) &&
      (r.Success? ==>
         |r.value.issues| == |parsed.value.issues.value| &&
         forall k :: 0 <= k < |r.value.issues| ==> r.value.issues[k].status == Pending)
  {
    Normalise(parse(ResponseBody(text)), c)
  }

  /** An empty reply is read as `'{}'`, which has no issues, so the call fails. */
  lemma EmptyReplyFails(text: Option<string>, parse: string -> Option<RawReport>, c: Channel)
    requires text.None? || text.value == ""
    requires parse("{}") == Some(EmptyObject)
    ensures AnalyzeResponse(text, parse, c) == Failure(FailureMessage(c))
  {
  }

  /** A payload missing only its transcript is still accepted. */
  lemma TranscriptNotChecked(raw: RawReport, c: Channel)
    requires raw.issues.Some? && raw.transcript.None?
    ensures Normalise(Some(raw), c).Success? && Normalise(Some(raw), c).value.transcript.None?
  {
  }
}
