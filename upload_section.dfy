/**
 * UploadSection: building the session record from the analysis result, the
 * "AUD-" reference code, the DD/MM/YYYY call date, and the `isProcessing`
 * and `error` state around the asynchronous analysis. Each async handler is
 * split at its `await`: the first method runs up to the call and returns the
 * request in flight, the second runs the continuation with the call's
 * outcome. `new Date()`, `Math.random()`, `toISOString()` and
 * `URL.createObjectURL` are parameters.
 */
module UploadSection {
  import opened Wrappers
  import opened AuditTypes
  import opened Dates

  /** What `String.prototype.trim` strips: ECMAScript WhiteSpace and LineTerminator. */
  predicate IsJsWhitespace(c: char) {
    var n := c as int;
    (0x09 <= n <= 0x0D) || n == 0x20 || n == 0xA0 || n == 0x1680 || (0x2000 <= n <= 0x200A) ||
    n == 0x2028 || n == 0x2029 || n == 0x202F || n == 0x205F || n == 0x3000 || n == 0xFEFF
  }

  /** `!text.trim()`: nothing but whitespace (or nothing at all). */
  predicate Blank(text: string) {
    forall i :: 0 <= i < |text| ==> IsJsWhitespace(text[i])
  }

  predicate IsBase36Lower(c: char) {
    ('0' <= c <= '9') || ('a' <= c <= 'z')
  }

  predicate IsBase36Upper(c: char) {
    ('0' <= c <= '9') || ('A' <= c <= 'Z')
  }

  /** What `Math.random().toString(36)` looks like: "0", or "0." and base-36 digits. */
  predicate RandomBase36(s: string) {
    s == "0" || (|s| >= 3 && s[0] == '0' && s[1] == '.' && forall i :: 2 <= i < |s| ==> IsBase36Lower(s[i]))
  }

  /** `s.substr(start, length)` for non-negative arguments. */
  function Substr(s: string, start: nat, length: nat): (r: string)
    ensures |r| <= length
    ensures start >= |s| ==> r == ""
    ensures start < |s| ==> r == s[start..if start + length < |s| then start + length else |s|]
  {
    if start >= |s| then "" else s[start..if start + length < |s| then start + length else |s|]
  }

  function UpperAscii(c: char): (u: char)
    ensures IsBase36Lower(c) ==> IsBase36Upper(u)
  {
    if 'a' <= c <= 'z' then (c as int - 32) as char else c
  }

  function LowerAscii(c: char): char {
    if 'A' <= c <= 'Z' then (c as int + 32) as char else c
  }

  /** `toUpperCase()` on ASCII text; only base-36 digits ever reach it. */
  function ToUpper(s: string): (r: string)
    ensures |r| == |s|
    ensures forall i :: 0 <= i < |s| ==> r[i] == UpperAscii(s[i])
  {
    if s == [] then [] else [UpperAscii(s[0])] + ToUpper(s[1..])
  }

  /** `` `AUD-${Math.random().toString(36).substr(2, 6).toUpperCase()}` ``. */
  function SessionId(randomText: string): (r: string)
    ensures |r| >= 4 && r[..4] == "AUD-" && |r| <= 10
    ensures RandomBase36(randomText) ==> forall i :: 4 <= i < |r| ==> IsBase36Upper(r[i])
    ensures |r| == 4 + (if |randomText| >= 8 then 6 else if |randomText| >= 2 then |randomText| - 2 else 0)
  {
    var token := ToUpper(Substr(randomText, 2, 6));
    var r := "AUD-" + token;
    assert r[..4] == "AUD-" && r[4..] == token;
    r
  }

  /** The code keeps the random digits: lower-casing it again gives them back. */
  lemma SessionIdKeepsDigits(randomText: string, k: nat)
    requires RandomBase36(randomText) && 4 + k < |SessionId(randomText)|
    ensures 2 + k < |randomText| && LowerAscii(SessionId(randomText)[4 + k]) == randomText[2 + k]
  {
    var token := ToUpper(Substr(randomText, 2, 6));
    assert SessionId(randomText) == "AUD-" + token;
    assert SessionId(randomText)[4 + k] == token[k];
  }

  /** The `File` fields the handler reads. */
  datatype FileInfo = FileInfo(name: string, mediaType: string, lastModified: int)

  /** `file.lastModified ? new Date(file.lastModified) : new Date()`, as local calendar fields. */
  function FileDay(file: FileInfo, modifiedLocal: CivilDate, nowLocal: CivilDate): (r: CivilDate)
    ensures file.lastModified != 0 ==> r == modifiedLocal
    ensures file.lastModified == 0 ==> r == nowLocal
  {
    if file.lastModified != 0 then modifiedLocal else nowLocal
  }

  /** `if (results.metadata) results.metadata.callDate = date`. */
  function WithCallDate(results: Results, date: string): (r: Results)
    ensures r.metadata.Some? <==> results.metadata.Some?
    ensures r.metadata.Some? ==> r.metadata.value == results.metadata.value.(callDate := date)
    ensures r.metadata.None? ==> r == results
    ensures r.issues == results.issues && r.transcript == results.transcript
    ensures r.riskScore == results.riskScore && r.riskLevel == results.riskLevel && r.summary == results.summary
  {
    match results.metadata
    case None => results
    case Some(m) => results.(metadata := Some(m.(callDate := date)))
  }

  const MANUAL_SUBMISSION := "Manual Submission"
  const TEXT_FAILURE := "Failed to analyze transcript. Please try again."
  const UPLOAD_FAILURE := "Analysis failed. Please check your connection and try again."

  /** The record `onComplete` receives after an audio analysis. */
  function AudioSession(results: Results, fileDate: string, file: FileInfo, randomText: string, timestamp: string, objectUrl: string): (r: Session)
    ensures r.filename == file.name && r.audioUrl == Some(objectUrl) && r.status == Completed
    ensures r.results == Some(WithCallDate(results, fileDate))
    ensures r.id == SessionId(randomText) && r.timestamp == timestamp
  {
    Session(SessionId(randomText), timestamp, file.name, Some(objectUrl), Some(WithCallDate(results, fileDate)), Completed)
  }

  /** The record `onComplete` receives after a transcript analysis. */
  function TextSession(results: Results, today: string, randomText: string, timestamp: string): (r: Session)
    ensures r.filename == MANUAL_SUBMISSION && r.audioUrl.None? && r.status == Completed
    ensures r.results == Some(WithCallDate(results, today))
    ensures r.id == SessionId(randomText) && r.timestamp == timestamp
  {
    Session(SessionId(randomText), timestamp, MANUAL_SUBMISSION, None, Some(WithCallDate(results, today)), Completed)
  }

  /** A transcript analysis in flight: the text sent. */
  datatype TextRequest = TextRequest(transcript: string)

  /** An audio analysis in flight: the file and the call date computed before the read. */
  datatype AudioRequest = AudioRequest(file: FileInfo, fileDate: string)

  class Uploader {
    var isProcessing: bool
    var error: Option<string>
    var transcriptInput: string

    constructor()
      ensures !isProcessing && error.None? && transcriptInput == ""
    {
      isProcessing := false;
      error := None;
      transcriptInput := "";
    }

    /** The transcript textarea's `onChange`. */
    method EditTranscript(text: string)
      modifies this`transcriptInput
      ensures transcriptInput == text
    {
      transcriptInput := text;
    }

    /** `handleTranscriptSubmit` up to its `await`. */
    method HandleTranscriptSubmit() returns (request: Option<TextRequest>)
      modifies this`isProcessing, this`error
      ensures Blank(transcriptInput) ==>
        request.None? && isProcessing == old(isProcessing) && error == old(error)
      ensures !Blank(transcriptInput) ==>
        request == Some(TextRequest(transcriptInput)) && isProcessing && error.None?
    {
      if Blank(transcriptInput) {
        return None;
      }
      isProcessing := true;
      error := None;
      request := Some(TextRequest(transcriptInput));
    }

    /**
     * The rest of `handleTranscriptSubmit`: on success the session goes to
     * `onComplete`, on failure a fixed message is shown; both clear
     * `isProcessing` (the `finally`).
     */
    method FinishTranscriptSubmit(request: TextRequest, outcome: Result<Results, string>,
                                  todayLocal: CivilDate, randomText: string, timestamp: string)
      returns (completed: Option<Session>)
      requires ValidDate(todayLocal)
      modifies this`isProcessing, this`error
      ensures !isProcessing
      ensures outcome.Success? ==>
        completed == Some(TextSession(outcome.value, FormatDate(todayLocal), randomText, timestamp)) && error == old(error)
      ensures outcome.Failure? ==> completed.None? && error == Some(TEXT_FAILURE)
    {
      match outcome {
        case Success(results) =>
          completed := Some(TextSession(results, FormatDate(todayLocal), randomText, timestamp));
        case Failure(_) =>
          error := Some(TEXT_FAILURE);
          completed := None;
      }
      isProcessing := false;
    }

    /**
     * `handleFileUpload` up to the start of the file read. `setupThrows`
     * stands for an exception in the synchronous part, the only part the
     * `try` covers.
     */
    method HandleFileUpload(file: Option<FileInfo>, modifiedLocal: CivilDate, nowLocal: CivilDate, setupThrows: bool)
      returns (request: Option<AudioRequest>)
      requires ValidDate(modifiedLocal) && ValidDate(nowLocal)
      modifies this`isProcessing, this`error
      ensures file.None? ==> request.None? && isProcessing == old(isProcessing) && error == old(error)
      ensures file.Some? && setupThrows ==> request.None? && !isProcessing && error == Some(UPLOAD_FAILURE)
      ensures file.Some? && !setupThrows ==>
        request == Some(AudioRequest(file.value, FormatDate(FileDay(file.value, modifiedLocal, nowLocal)))) &&
        isProcessing && error.None?
    {
      if file.None? {
        return None;
      }
      isProcessing := true;
      error := None;
      if setupThrows {
        error := Some(UPLOAD_FAILURE);
        isProcessing := false;
        return None;
      }
      var fileDate := FormatDate(FileDay(file.value, modifiedLocal, nowLocal));
      request := Some(AudioRequest(file.value, fileDate));
    }

    /**
     * The reader's `onload`, outside the `try`: a successful analysis
     * completes the session and clears `isProcessing`; a failed one escapes
     * as an unhandled rejection and changes nothing, so the spinner stays.
     */
    method FinishAudioAnalysis(request: AudioRequest, outcome: Result<Results, string>,
                               randomText: string, timestamp: string, objectUrl: string)
      returns (completed: Option<Session>)
      modifies this`isProcessing
      ensures outcome.Success? ==>
        completed == Some(AudioSession(outcome.value, request.fileDate, request.file, randomText, timestamp, objectUrl)) &&
        !isProcessing
      ensures outcome.Failure? ==> completed.None? && isProcessing == old(isProcessing)
    {
      match outcome {
        case Success(results) =>
          completed := Some(AudioSession(results, request.fileDate, request.file, randomText, timestamp, objectUrl));
          isProcessing := false;
        case Failure(_) =>
          completed := None;
      }
    }
  }

  /** A failed audio analysis leaves the section processing, with no error shown. */
  method AudioFailureStaysProcessing(file: FileInfo, day: CivilDate)
    requires ValidDate(day)
  {
    var u := new Uploader();
    var request := u.HandleFileUpload(Some(file), day, day, false);
    var completed := u.FinishAudioAnalysis(request.value, Failure("network"), "0.abc", "t", "blob:x");
    assert completed.None? && u.isProcessing && u.error.None?;
  }
}
