/**
 * The per-line derivation in AuditDashboard's transcript rendering: which
 * line is highlighted, which counts as resolved, and which offers the
 * "Review Flag" jump. JavaScript truthiness matters: a `null` or empty id
 * is false.
 */
module TranscriptBinder {
  import opened Wrappers
  import opened AuditTypes
  import Review

  /** What one transcript line shows; `jumpTarget` is the id its button selects. */
  datatype LineView = LineView(isActive: bool, isResolved: bool, offersJump: bool, jumpTarget: Option<string>)

  /** JavaScript truthiness of an optional string. */
  predicate Truthy(s: Option<string>) {
    s.Some? && s.value != ""
  }

  /** `activeIssueId && line.issueId === activeIssueId`. */
  predicate IsActiveLine(line: TranscriptLine, active: Option<string>) {
    Truthy(active) && line.issueId == active
  }

  /** `issueForLine && issueForLine.status !== 'pending'`. */
  predicate IsResolvedLine(line: TranscriptLine, issues: seq<Issue>) {
    var issue := Review.FindIssue(issues, line.issueId);
    issue.Some? && issue.value.status != Pending
  }

  /** `line.issueId && !isResolved`. */
  predicate OffersJump(line: TranscriptLine, issues: seq<Issue>) {
    Truthy(line.issueId) && !IsResolvedLine(line, issues)
  }

  function ViewLine(line: TranscriptLine, issues: seq<Issue>, active: Option<string>): LineView {
    LineView(IsActiveLine(line, active), IsResolvedLine(line, issues), OffersJump(line, issues),
             if OffersJump(line, issues) then line.issueId else None)
  }

  /** `results.transcript.map(...)`: one view per line, in transcript order. */
  function BindTranscript(transcript: seq<TranscriptLine>, issues: seq<Issue>, active: Option<string>): (r: seq<LineView>)
    ensures |r| == |transcript|
    ensures forall k :: 0 <= k < |r| ==>
      (r[k].isActive <==> Truthy(active) && transcript[k].issueId == active)
    ensures forall k :: 0 <= k < |r| ==>
      (r[k].offersJump <==> (Truthy(transcript[k].issueId) &&
        (Review.FindIndex(issues, transcript[k].issueId).None? || Review.FirstMatchPending(issues, transcript[k].issueId))))
    ensures forall k :: 0 <= k < |r| ==>
      (r[k].isResolved <==>
        (Review.FindIndex(issues, transcript[k].issueId).Some? && !Review.FirstMatchPending(issues, transcript[k].issueId)))
    ensures forall k :: 0 <= k < |r| && !r[k].offersJump ==> r[k].jumpTarget.None?
    ensures forall k :: 0 <= k < |r| && r[k].offersJump ==>
      r[k].jumpTarget == transcript[k].issueId && IsActiveLine(transcript[k], r[k].jumpTarget)
  {
    if transcript == [] then []
    else [ViewLine(transcript[0], issues, active)] + BindTranscript(transcript[1..], issues, active)
  }

  /**
   * The jump is offered exactly when the line names an issue that is
   * missing from the list or still pending.
   */
  lemma JumpOfferedIff(line: TranscriptLine, issues: seq<Issue>)
    ensures OffersJump(line, issues) <==>
      Truthy(line.issueId) &&
      ((forall j :: 0 <= j < |issues| ==> line.issueId != Some(issues[j].id)) ||
       Review.FirstMatchPending(issues, line.issueId))
  {
  }
}
