/**
 * The playback side of AuditDashboard as functions on values: the audio
 * element's transport state, the auto-stop check run on every `timeupdate`,
 * the issue-change binding, the duration guard, `formatTime` and the
 * progress-bar fractions. AuditDashboard's handlers are specified by these.
 */
module Playback {
  import opened Wrappers
  import opened Decimal
  import opened AuditTypes
  import Review

  /**
   * What the audio element reports: `paused`, `currentTime` and `duration`
   * (`None` while it is NaN, before the metadata has loaded).
   */
  datatype Transport = Transport(paused: bool, position: real, duration: Option<real>)

  /** The condition of the `timeupdate` listener for pausing at the issue's end. */
  predicate AutoStopDue(autoStop: bool, active: Option<Issue>, t: Transport) {
    autoStop && active.Some? && !t.paused && active.value.endTime.Some? &&
    t.position >= active.value.endTime.value
  }

  /** The transport after the listener ran: paused and clamped to `endTime` when due. */
  function AfterTimeUpdate(autoStop: bool, active: Option<Issue>, t: Transport): (r: Transport)
    ensures AutoStopDue(autoStop, active, t) ==>
      r == t.(paused := true, position := active.value.endTime.value)
    ensures !AutoStopDue(autoStop, active, t) ==> r == t
  {
    if AutoStopDue(autoStop, active, t) then t.(paused := true, position := active.value.endTime.value) else t
  }

  /** Repeated `timeupdate` events at or past the boundary change nothing more. */
  lemma TimeUpdateIdempotent(autoStop: bool, active: Option<Issue>, t: Transport)
    ensures AfterTimeUpdate(autoStop, active, AfterTimeUpdate(autoStop, active, t)) == AfterTimeUpdate(autoStop, active, t)
  {
  }

  /**
   * The clamp: with auto-stop armed and an end time, after the listener ran
   * the transport is either paused or still short of the end.
   */
  lemma PlaybackStopsAtEnd(autoStop: bool, active: Option<Issue>, t: Transport)
    requires autoStop && active.Some? && active.value.endTime.Some?
    ensures var r := AfterTimeUpdate(autoStop, active, t);
      r.paused || r.position < active.value.endTime.value
    ensures var r := AfterTimeUpdate(autoStop, active, t);
      r.position != t.position ==> r.position == active.value.endTime.value && !t.paused
  {
  }

  /** A manual seek while paused is never undone by the check, wherever it lands. */
  lemma NoStopWhilePaused(autoStop: bool, active: Option<Issue>, t: Transport)
    requires t.paused
    ensures AfterTimeUpdate(autoStop, active, t) == t
  {
  }

  /** The state the issue-change effect writes: transport, notes buffer and auto-stop flag. */
  datatype Controls = Controls(audio: Option<Transport>, notes: string, autoStop: bool)

  /** `activeIssue.notes || ''`. */
  function NotesOrEmpty(i: Issue): string {
    i.notes.GetOr("")
  }

  /**
   * The effect keyed on `activeIssueId` runs only when the id changed, and
   * does something only if the new id names an issue, the audio element
   * exists and the issue has a `startTime`.
   */
  predicate BindFires(prev: Option<string>, next: Option<string>, issues: seq<Issue>, audio: Option<Transport>) {
    prev != next && audio.Some? &&
    Review.FindIssue(issues, next).Some? && Review.FindIssue(issues, next).value.startTime.Some?
  }

  /** Seek to the start, load the issue's notes, re-arm auto-stop, pause. */
  function Bind(prev: Option<string>, next: Option<string>, issues: seq<Issue>, c: Controls): (r: Controls)
    ensures BindFires(prev, next, issues, c.audio) ==>
      var i := Review.FindIssue(issues, next).value;
      r.audio.Some? && r.audio.value.paused && r.audio.value.position == i.startTime.value &&
      r.audio.value.duration == c.audio.value.duration && r.notes == NotesOrEmpty(i) && r.autoStop
    ensures !BindFires(prev, next, issues, c.audio) ==> r == c
  {
    if BindFires(prev, next, issues, c.audio) then
      var i := Review.FindIssue(issues, next).value;
      Controls(Some(c.audio.value.(position := i.startTime.value, paused := true)), NotesOrEmpty(i), true)
    else c
  }

  /** After unlocking, only a binding that actually fired arms auto-stop again. */
  lemma OnlyBindRearms(prev: Option<string>, next: Option<string>, issues: seq<Issue>, c: Controls)
    requires !c.autoStop && Bind(prev, next, issues, c).autoStop
    ensures BindFires(prev, next, issues, c.audio)
  {
  }

  /** Switching to `null` or to an issue without `startTime` leaves everything as it was. */
  lemma BindInertWithoutStart(prev: Option<string>, next: Option<string>, issues: seq<Issue>, c: Controls)
    requires Review.FindIssue(issues, next).None? || Review.FindIssue(issues, next).value.startTime.None?
    ensures Bind(prev, next, issues, c) == c
  {
  }

  /** `handleDurationChange`: only a truthy, non-NaN reported duration is taken. */
  function DurationAfterChange(current: real, reported: Option<real>): (r: real)
    ensures reported.Some? && reported.value != 0.0 ==> r == reported.value
    ensures reported.None? || reported.value == 0.0 ==> r == current
  {
    if reported.Some? && reported.value != 0.0 then reported.value else current
  }

  /** `duration || 1`: the divisor of every progress fraction. */
  function Divisor(duration: real): (r: real)
    ensures r != 0.0
    ensures duration != 0.0 ==> r == duration
  {
    if duration == 0.0 then 1.0 else duration
  }

  lemma FractionOfWhole(t: real, d: real)
    ensures 0.0 < d && 0.0 <= t <= d ==> 0.0 <= t / d <= 1.0
  {
    if d <= 0.0 || t < 0.0 || t > d { return; }
    var f := t / d;
    assert f * d == t;
  }

  /** Width of the played part of the bar, as a fraction of the track. */
  function ProgressFraction(t: real, duration: real): (r: real)
    ensures r * Divisor(duration) == t
    ensures duration == 0.0 ==> r == t
    ensures 0.0 < duration && 0.0 <= t <= duration ==> 0.0 <= r <= 1.0
  {
    FractionOfWhole(t, duration);
    t / Divisor(duration)
  }

  /** Left edge and width of the highlighted issue span, as fractions of the track. */
  function SpanFractions(start: real, end: real, duration: real): (r: (real, real))
    ensures r.0 * Divisor(duration) == start && r.1 * Divisor(duration) == end - start
    ensures r.0 + r.1 == end / Divisor(duration)
    ensures 0.0 < duration && 0.0 <= start <= end <= duration ==> 0.0 <= r.0 && r.0 + r.1 <= 1.0
  {
    var d := Divisor(duration);
    SumOfQuotients(start, end - start, d);
    FractionOfWhole(start, duration);
    FractionOfWhole(end, duration);
    (start / d, (end - start) / d)
  }

  /** Quotients by the same non-zero divisor add up to the quotient of the sum. */
  lemma SumOfQuotients(a: real, b: real, d: real)
    requires d != 0.0
    ensures a / d + b / d == (a + b) / d
  {
    assert (a / d) * d == a && (b / d) * d == b;
    assert (a / d + b / d) * d == a + b;
  }

  /** Toward-zero integer part, as `Math.trunc`. */
  function Trunc(x: real): int {
    if x >= 0.0 then x.Floor else -((-x).Floor)
  }

  /** JavaScript's `x % m` on numbers: the remainder keeps the dividend's sign. */
  function JsRem(x: real, m: real): real
    requires m > 0.0
  {
    x - m * (Trunc(x / m) as real)
  }

  /** Whole seconds shown as minutes, a colon and two zero-padded seconds digits. */
  function ClockText(whole: nat): (r: string)
    ensures |r| >= 4 && r[|r| - 3] == ':'
    ensures r[..|r| - 3] == NatToString(whole / 60) && r[|r| - 2..] == TwoDigits(whole % 60)
  {
    var m, s := NatToString(whole / 60), TwoDigits(whole % 60);
    var r := m + [':'] + s;
    assert r[..|r| - 3] == m && r[|r| - 2..] == s;
    r
  }

  /** Reads an `m:ss` text back into whole seconds. */
  function ParseClock(s: string): nat
    requires |s| >= 4 && AllDigits(s[..|s| - 3]) && AllDigits(s[|s| - 2..])
  {
    ParseNat(s[..|s| - 3]) * 60 + ParseNat(s[|s| - 2..])
  }

  /** The clock text denotes exactly the whole seconds it was made from. */
  lemma ParseClockText(whole: nat)
    ensures var r := ClockText(whole);
      AllDigits(r[..|r| - 3]) && AllDigits(r[|r| - 2..]) && ParseClock(r) == whole
  {
    ParseNatToString(whole / 60);
  }

  lemma WholeSeconds(x: real)
    requires x >= 0.0
    ensures (x / 60.0).Floor == x.Floor / 60
    ensures JsRem(x, 60.0).Floor == x.Floor % 60
  {
    var n := x.Floor;
    var q, s := n / 60, n % 60;
    assert n == 60 * q + s;
    assert (q as real) <= x / 60.0 < (q + 1) as real;
    assert Trunc(x / 60.0) == q;
    assert JsRem(x, 60.0) == x - 60.0 * (q as real);
    assert (s as real) <= x - 60.0 * (q as real) < (s + 1) as real;
  }

  /**
   * `formatTime`: "0:00" for NaN; otherwise floor(x / 60), a colon and
   * floor(x % 60) padded to two digits, which for a non-negative time is
   * the whole seconds split into minutes and seconds 0..59.
   */
  function FormatTime(seconds: Option<real>): (r: string)
    ensures seconds.None? ==> r == "0:00"
    ensures seconds.Some? && seconds.value >= 0.0 ==> r == ClockText(seconds.value.Floor)
    ensures |r| >= 4
  {
    match seconds
    case None => "0:00"
    case Some(x) =>
      var mins := (x / 60.0).Floor;
      var secs := JsRem(x, 60.0).Floor;
      if x >= 0.0 then
        WholeSeconds(x);
        PadStart2OfNat(secs);
        IntToString(mins) + ":" + PadStart2(IntToString(secs))
      else
        IntToString(mins) + ":" + PadStart2(IntToString(secs))
  }

  /** The "Length" field as written: `formatTime(duration) || results.metadata?.duration`. */
  function LengthLabelAsWritten(duration: real, metadata: Option<Metadata>): (r: string)
    ensures r == FormatTime(Some(duration))
  {
    var shown := FormatTime(Some(duration));
    if shown != "" then shown
    else match metadata
      case Some(m) => m.duration
      case None => ""
  }

  /** Before any duration is known (always, for a text session) the label reads "0:00". */
  lemma UnknownDurationHidesMetadata(m: Metadata)
    ensures LengthLabelAsWritten(0.0, Some(m)) == "0:00"
  {
    UnknownDurationReadsZero();
  }

  /** A zero duration is shown as "0:00". */
  lemma UnknownDurationReadsZero()
    ensures FormatTime(Some(0.0)) == "0:00"
  {
    assert FormatTime(Some(0.0)) == ClockText(0);
    assert NatToString(0) == "0";
  }

  /** The label with the fallback its author evidently meant: used while no duration is known. */
  function LengthLabel(duration: real, metadata: Option<Metadata>): (r: string)
    ensures duration == 0.0 && metadata.Some? ==> r == metadata.value.duration
    ensures duration != 0.0 || metadata.None? ==> r == FormatTime(Some(duration))
  {
    if duration == 0.0 && metadata.Some? then metadata.value.duration else FormatTime(Some(duration))
  }
}
