/**
 * AuditDashboard's component state and its handlers. Each `useState` is a
 * field; each handler, each audio-element event listener and the effect
 * keyed on `activeIssueId` is a method. The `<audio>` element itself is the
 * `audio` field (absent when the session has no audio URL) and the
 * 450 ms `setTimeout` of `handleStatusChange` is a queue of scheduled
 * advances that `Tick` fires oldest first.
 */
module AuditDashboard {
  import opened Wrappers
  import opened AuditTypes
  import Review
  import Playback
  import TranscriptBinder

  class Dashboard {
    var issues: seq<Issue>
    var activeIssueId: Option<string>
    var currentNotes: string
    var isPlaying: bool
    var currentTime: real
    var duration: real
    var isAutoStopEnabled: bool
    /** The audio element behind `audioRef`; `None` when no `<audio>` is rendered. */
    var audio: Option<Playback.Transport>
    /** The `updatedIssues` snapshot of every advance still waiting for its timer, oldest first. */
    var timers: seq<seq<Issue>>
    /** `results.metadata` of the session the component was mounted with. */
    const metadata: Option<Metadata>

    /**
     * Mounting the component for `session`. A session whose results have no
     * transcript is accepted here, but the component's transcript rendering
     * (components/AuditDashboard.tsx line 426) throws on it, so it cannot render.
     */
    constructor(session: Session)
      ensures issues == (if session.results.Some? then session.results.value.issues else [])
      ensures activeIssueId == None && currentNotes == "" && isAutoStopEnabled
      ensures !isPlaying && currentTime == 0.0 && duration == 0.0
      ensures audio == (if session.results.Some? && TranscriptBinder.Truthy(session.audioUrl)
                        then Some(Playback.Transport(true, 0.0, None)) else None)
      ensures timers == []
      ensures metadata == (if session.results.Some? then session.results.value.metadata else None)
    {
      issues := if session.results.Some? then session.results.value.issues else [];
      activeIssueId := None;
      currentNotes := "";
      isPlaying := false;
      currentTime := 0.0;
      duration := 0.0;
      isAutoStopEnabled := true;
      // Without results the component renders nothing, so no `<audio>` either.
      audio := if session.results.Some? && TranscriptBinder.Truthy(session.audioUrl)
               then Some(Playback.Transport(true, 0.0, None)) else None;
      timers := [];
      metadata := if session.results.Some? then session.results.value.metadata else None;
    }

    /** `activeIssue`. */
    function ActiveIssue(): (r: Option<Issue>)
      reads this
      ensures r.None? <==> forall j :: 0 <= j < |issues| ==> activeIssueId != Some(issues[j].id)
      ensures r.Some? ==>
        Review.FindIndex(issues, activeIssueId).Some? &&
        r == Some(issues[Review.FindIndex(issues, activeIssueId).value]) && activeIssueId == Some(r.value.id)
    {
      Review.FindIssue(issues, activeIssueId)
    }

    /** `pendingCount`. */
    function PendingCount(): (r: nat)
      reads this
      ensures r <= |issues|
      ensures r == 0 <==> Review.NextActiveId(issues).None?
    {
      Review.PendingCount(issues)
    }

    /** `totalCount`. */
    function TotalCount(): (r: nat)
      reads this
      ensures r == |issues| && PendingCount() <= r
    {
      |issues|
    }

    /** The metadata bar's "Length" field, as written: the formatted duration, whatever the metadata says. */
    function LengthField(): (r: string)
      reads this
      ensures r == Playback.FormatTime(Some(duration))
      ensures duration == 0.0 ==> r == "0:00"
    {
      Playback.UnknownDurationReadsZero();
      Playback.LengthLabelAsWritten(duration, metadata)
    }

    /** The part of the state the issue-change effect writes. */
    function Controls(): Playback.Controls
      reads this
    {
      Playback.Controls(audio, currentNotes, isAutoStopEnabled)
    }

    /**
     * `setActiveIssueId(next)` followed by the effect keyed on
     * `activeIssueId`: sidebar clicks, transcript jumps, `startAudit` and
     * the delayed advance all go through here.
     */
    method SetActiveIssueId(next: Option<string>)
      modifies this`activeIssueId, this`audio, this`currentNotes, this`isAutoStopEnabled
      ensures activeIssueId == next
      ensures Controls() == Playback.Bind(old(activeIssueId), next, issues, old(Controls()))
    {
      var prev := activeIssueId;
      activeIssueId := next;
      if prev != next && audio.Some? {
        var issue := Review.FindIssue(issues, next);
        if issue.Some? && issue.value.startTime.Some? {
          audio := Some(audio.value.(position := issue.value.startTime.value));
          currentNotes := Playback.NotesOrEmpty(issue.value);
          isAutoStopEnabled := true;
          audio := Some(audio.value.(paused := true));
        }
      }
    }

    /** `startAudit`: the first pending issue in list order, or nothing at all. */
    method StartAudit()
      modifies this`activeIssueId, this`audio, this`currentNotes, this`isAutoStopEnabled
      ensures Review.FirstPending(issues).Some? ==>
        activeIssueId == Some(Review.FirstPending(issues).value.id) &&
        Controls() == Playback.Bind(old(activeIssueId), activeIssueId, issues, old(Controls()))
      ensures Review.FirstPending(issues).None? ==>
        activeIssueId == old(activeIssueId) && Controls() == old(Controls())
    {
      var first := Review.FirstPending(issues);
      if first.Some? {
        SetActiveIssueId(Some(first.value.id));
      }
    }

    /** The notes textarea's `onChange`. */
    method EditNotes(text: string)
      modifies this`currentNotes
      ensures currentNotes == text
    {
      currentNotes := text;
    }

    /**
     * `handleStatusChange`: record the decision and the notes buffer on the
     * issues with that id, then schedule the advance over the updated list.
     */
    method HandleStatusChange(id: string, status: Status)
      requires status != Pending
      modifies this`issues, this`timers
      ensures issues == Review.UpdateIssues(old(issues), id, status, currentNotes)
      ensures timers == old(timers) + [issues]
    {
      var updatedIssues := Review.UpdateIssues(issues, id, status, currentNotes);
      issues := updatedIssues;
      timers := timers + [updatedIssues];
    }

    /**
     * The oldest scheduled advance fires: it selects the first pending
     * issue of its own snapshot, or `null`, whatever was selected meanwhile.
     */
    method Tick()
      requires timers != []
      modifies this`timers, this`activeIssueId, this`audio, this`currentNotes, this`isAutoStopEnabled
      ensures timers == old(timers)[1..]
      ensures activeIssueId == Review.NextActiveId(old(timers)[0])
      ensures Controls() == Playback.Bind(old(activeIssueId), activeIssueId, issues, old(Controls()))
    {
      var snapshot := timers[0];
      timers := timers[1..];
      var nextPending := Review.FirstPending(snapshot);
      if nextPending.Some? {
        SetActiveIssueId(Some(nextPending.value.id));
      } else {
        SetActiveIssueId(None);
      }
    }

    /** "UNLOCK PLAYBACK". */
    method Unlock()
      modifies this`isAutoStopEnabled
      ensures !isAutoStopEnabled
    {
      isAutoStopEnabled := false;
    }

    /** The `timeupdate` listener: mirror the position, then the auto-stop check. */
    method OnTimeUpdate()
      requires audio.Some?
      modifies this`currentTime, this`audio
      ensures currentTime == old(audio.value.position)
      ensures audio == Some(Playback.AfterTimeUpdate(isAutoStopEnabled, ActiveIssue(), old(audio.value)))
    {
      currentTime := audio.value.position;
      var issue := Review.FindIssue(issues, activeIssueId);
      if isAutoStopEnabled && issue.Some? && !audio.value.paused && issue.value.endTime.Some? {
        if audio.value.position >= issue.value.endTime.value {
          audio := Some(audio.value.(paused := true));
          audio := Some(audio.value.(position := issue.value.endTime.value));
        }
      }
    }

    /** The `durationchange` listener. */
    method OnDurationChange()
      requires audio.Some?
      modifies this`duration
      ensures duration == Playback.DurationAfterChange(old(duration), audio.value.duration)
    {
      if audio.value.duration.Some? && audio.value.duration.value != 0.0 {
        duration := audio.value.duration.value;
      }
    }

    /** The `play` listener. */
    method OnPlay()
      modifies this`isPlaying
      ensures isPlaying
    {
      isPlaying := true;
    }

    /** The `pause` listener. */
    method OnPause()
      modifies this`isPlaying
      ensures !isPlaying
    {
      isPlaying := false;
    }

    /** The `ended` listener. */
    method OnEnded()
      modifies this`isPlaying
      ensures !isPlaying
    {
      isPlaying := false;
    }

    /** `handleSeek`: straight to the requested time, whatever the auto-stop state. */
    method HandleSeek(time: real)
      modifies this`audio, this`currentTime
      ensures old(audio).Some? ==> audio == Some(old(audio).value.(position := time)) && currentTime == time
      ensures old(audio).None? ==> audio == old(audio) && currentTime == old(currentTime)
    {
      if audio.Some? {
        audio := Some(audio.value.(position := time));
        currentTime := time;
      }
    }

    /** `togglePlay`: decided by the `isPlaying` state, not by the element itself. */
    method TogglePlay()
      modifies this`audio
      ensures old(audio).Some? ==> audio == Some(old(audio).value.(paused := isPlaying))
      ensures old(audio).None? ==> audio == old(audio)
    {
      if audio.Some? {
        if isPlaying {
          audio := Some(audio.value.(paused := true));
        } else {
          audio := Some(audio.value.(paused := false));
        }
      }
    }

    /** The element's own clock moving a playing track to `t` (environment, not component code). */
    method PlaybackProgress(t: real)
      requires audio.Some? && !audio.value.paused
      modifies this`audio
      ensures audio == Some(old(audio).value.(position := t))
    {
      audio := Some(audio.value.(position := t));
    }

    /** The element learning the track's duration (environment, not component code). */
    method MetadataLoaded(d: real)
      requires audio.Some?
      modifies this`audio
      ensures audio == Some(old(audio).value.(duration := Some(d)))
    {
      audio := Some(audio.value.(duration := Some(d)));
    }
  }

  function Flag(id: string, start: Option<real>, end: Option<real>): Issue {
    Issue(id, "Guaranteed returns", "excerpt " + id, "explanation", 0.9, Pending, start, end, None)
  }

  function SessionWith(audioUrl: Option<string>, issues: seq<Issue>): Session {
    Session("AUD-TEST01", "2025-12-28T10:00:00.000Z", "call.mp3", audioUrl,
            Some(Results(Some(40), Some("Medium"), Some("summary"), None, issues, Some([]))), Completed)
  }

  /** Two flags a and b: a is rejected with its notes, and the advance moves on to b and seeks there. */
  method ReviewFirstDecision() {
    var a, b := Flag("a", Some(5.0), Some(8.0)), Flag("b", Some(20.0), Some(25.0));
    var d := new Dashboard(SessionWith(Some("blob:call"), [a, b]));
    assert Review.FirstPendingIndex(d.issues) == Some(0);
    d.StartAudit();
    assert d.activeIssueId == Some("a");
    assert d.audio == Some(Playback.Transport(true, 5.0, None)) && d.isAutoStopEnabled;
    d.EditNotes("ok");
    d.HandleStatusChange("a", Rejected);
    assert d.issues[0].status == Rejected && d.issues[0].notes == Some("ok");
    assert d.PendingCount() == 1 by {
      assert d.issues[1..][1..] == [];
      assert Review.PendingCount(d.issues[1..]) == 1;
    }
    assert Review.FirstPendingIndex(d.timers[0]) == Some(1) by {
      assert Review.FirstPendingIndex(d.timers[0][1..]) == Some(0);
    }
    d.Tick();
    assert d.activeIssueId == Some("b");
    assert d.audio.value.position == 20.0;
  }

  /** The last pending flag b is validated: the advance selects nothing and nothing is pending. */
  method ReviewLastDecision() {
    var a, b := Flag("a", Some(5.0), Some(8.0)).(status := Rejected), Flag("b", Some(20.0), Some(25.0));
    var d := new Dashboard(SessionWith(Some("blob:call"), [a, b]));
    d.SetActiveIssueId(Some("b"));
    d.EditNotes("bad");
    d.HandleStatusChange("b", Validated);
    assert d.issues[1].status == Validated && d.issues[0].status == Rejected;
    d.Tick();
    assert d.activeIssueId == None;
    assert d.PendingCount() == 0 by {
      assert d.issues[1..][1..] == [];
      assert Review.PendingCount(d.issues[1..]) == 0;
    }
  }

  /** Auto-stop clamps at the end time; after unlocking, playback runs past it. */
  method AutoStopWalkthrough() {
    var f := Flag("f", Some(10.0), Some(20.0));
    var d := new Dashboard(SessionWith(Some("blob:call"), [f]));
    d.SetActiveIssueId(Some("f"));
    d.HandleSeek(15.0);
    d.TogglePlay();
    d.OnPlay();
    d.PlaybackProgress(20.25);
    d.OnTimeUpdate();
    assert d.audio.value.paused && d.audio.value.position == 20.0;
    d.OnTimeUpdate();
    assert d.audio.value.paused && d.audio.value.position == 20.0;
    d.OnPause();
    d.Unlock();
    d.TogglePlay();
    d.OnPlay();
    d.PlaybackProgress(24.0);
    d.OnTimeUpdate();
    assert !d.audio.value.paused && d.audio.value.position == 24.0;
  }

  /** An advance scheduled before a manual selection overrides that selection when it fires. */
  method AdvanceOverridesSelection() {
    var a, b, c := Flag("a", None, None), Flag("b", None, None), Flag("c", None, None);
    var d := new Dashboard(SessionWith(None, [a, b, c]));
    d.SetActiveIssueId(Some("a"));
    d.HandleStatusChange("a", Validated);
    d.SetActiveIssueId(Some("c"));
    assert d.activeIssueId == Some("c");
    assert Review.FirstPendingIndex(d.timers[0]) == Some(1) by {
      assert Review.FirstPendingIndex(d.timers[0][1..]) == Some(0);
    }
    d.Tick();
    assert d.activeIssueId == Some("b");
  }

  /**
   * Without an audio element the effect never runs, so the notes typed for
   * one issue stay in the buffer and are stored on the next one decided.
   */
  method NotesCarryOverWithoutAudio() {
    var a, b := Flag("a", Some(5.0), Some(8.0)), Flag("b", Some(20.0), Some(25.0));
    var d := new Dashboard(SessionWith(None, [a, b]));
    d.StartAudit();
    d.EditNotes("misleading claim");
    d.HandleStatusChange("a", Validated);
    assert Review.FirstPendingIndex(d.timers[0]) == Some(1) by {
      assert Review.FirstPendingIndex(d.timers[0][1..]) == Some(0);
    }
    d.Tick();
    assert d.activeIssueId == Some("b") && d.currentNotes == "misleading claim";
    d.HandleStatusChange("b", Rejected);
    assert d.issues[1].notes == Some("misleading claim");
  }
}
