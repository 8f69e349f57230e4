# AI Call Audit — a Dafny model of the review and playback core

AI Call Audit is a browser application for insurance compliance
auditors. A recorded sales call (audio) or a pasted transcript is sent
to a generative model, which returns a risk report. The report holds a
0–100 risk score, a level, call metadata, a list of flagged issues with
time spans, and a speaker-labelled transcript. The auditor then walks
through the flagged issues in the "Audit Investigator". For each issue
they listen to the flagged span, which stops by itself at the span's
end, write notes, and validate or reject it. A delayed advance then
moves to the next pending issue. Finished sessions go into an
in-memory history, which is shown as a table and summarised in an
analytics card.

This project models that core and proves properties of the model:

- **AuditDashboard** (`audit_dashboard.dfy`): the class `Dashboard`.
  - Fields: the review and playback state of the component, the audio element (`Playback.Transport`, absent without an audio URL), and a queue of pending delayed advances.
  - Methods: one per handler, audio-element event and effect.
  - `PlaybackProgress` and `MetadataLoaded` stand for the audio element's own clock and metadata load, which are not component code. The scenario methods at the end of the file use them.
- **Review**, **Playback**, **TranscriptBinder**: the pure derivations those methods are specified by.
  - Review covers find, filter and map over the issues.
  - Playback covers the auto-stop check, the issue-change binding, the duration guard, `formatTime` and the progress fractions.
  - TranscriptBinder covers the per-line highlight, resolved and jump flags.
- **UploadSection**: the class `Uploader` (`isProcessing`, `error`, `transcriptInput`), plus the session-record construction and the `AUD-` id.
  - Each asynchronous handler is split at its `await` into a method that returns the request in flight and a method that takes the outcome.
- **GeminiService**: the local post-processing of the analysis reply. A reply is parsed; every issue is stamped pending; a payload without `issues` fails.
- **App**: the class `AppState` (tab, current session, history) and the pure `RenderContent` routing.
- **Analytics**, **ComplianceHistory**, **RiskChart**: the aggregate card values, the history rows and the two score colourings.
  - The dashboard's `riskColor` (`components/AuditDashboard.tsx` line 123) follows the same rule as `ComplianceHistory.LevelBand`.
- **Decimal**, **Dates**, **AuditTypes**, **Wrappers**: number/text conversion, the DD/MM/YYYY format, the records of `types.ts`, and Option/Result.

Ambient values become parameters: `new Date()` (as local calendar fields), `Math.random().toString(36)` (as its text), `toISOString()`, `URL.createObjectURL`, and the analysis outcome.

### Behaviour of the code worth knowing

- A decided issue is not final. The Validate and Reject buttons are shown for any active issue, and the sidebar selects any issue. So a decided issue can be decided again, which overwrites its status and notes.
- The issue-change effect runs only when the active id actually changes. It does something only if the new id names an issue, the audio element exists and the issue has a `startTime`. Selecting `null`, or an issue without a start, changes nothing. Auto-stop is not re-armed then.
- Only `issues` is checked in the analysis reply. A reply without `transcript` is accepted. The dashboard then throws when it renders the transcript (`results.transcript.map`, `components/AuditDashboard.tsx` line 426), so such a session cannot be shown.
- A status change for an id other than the active one is not refused.
- Without an audio element the issue-change effect does nothing: its guard on the audio element fails. So the notes typed for one issue stay in the buffer and are stored on the next one decided (`AuditDashboard.NotesCarryOverWithoutAudio`).
- An advance scheduled before a manual selection overrides that selection when it fires (`AuditDashboard.AdvanceOverridesSelection`).
- A failed audio analysis escapes the `try`. The section then stays "processing" with no error shown (`UploadSection.AudioFailureStaysProcessing`).
- The history placeholders have no issue list and no transcript. Their `issues` are read as empty here. The dashboard's transcript rendering would fail on them.

## Model

| member | source | states |
|---|---|---|
| Decimal.NatToString | components/AuditDashboard.tsx:117 | the decimal text of a number: non-empty, all digits, no leading zero, one digit exactly below 10 |
| Decimal.ParseNatToString | components/AuditDashboard.tsx:117 | reading the decimal text back gives the number |
| Decimal.IntToString | components/UploadSection.tsx:21-22 | non-negative integers print as their digits, negative ones as "-" then the digits of the magnitude |
| Decimal.ParseIntToString | components/UploadSection.tsx:21-22 | the signed text of a year reads back to the year |
| Decimal.PadStart2 | components/UploadSection.tsx:19 | `padStart(2, '0')`: length max(2, len), the input as suffix, zeros in front |
| Decimal.TwoDigits | components/UploadSection.tsx:19-20 | a number below 100 as exactly two digits that read back to it |
| Decimal.PadStart2OfNat | components/UploadSection.tsx:19-20 | padding the decimal text of a number below 100 gives its two-digit form |
| Dates.FormatDate | components/ComplianceHistoryView.tsx:37-43 | DD/MM/YYYY: slashes at 2 and 5, two-digit day, two-digit 1-based month, the year as printed |
| Dates.ParseFormatDate | components/UploadSection.tsx:17-23 | the date text reads back to the same day, month and year |
| GeminiService.StampPending | geminiService.ts:81 | a stamped issue is pending |
| GeminiService.StampKeepsFields | geminiService.ts:81 | stamping changes nothing but the status |
| GeminiService.StampAll | geminiService.ts:81 | same count and order; every issue pending and otherwise equal to its input |
| GeminiService.ResponseBody | geminiService.ts:80 | the reply text when non-empty, else `'{}'` |
| GeminiService.Normalise | geminiService.ts:79-86 | fails exactly on a parse failure or missing `issues`, with the channel's message; otherwise stamps the issues and passes score, level, summary, metadata and transcript through |
| GeminiService.AnalyzeResponse | geminiService.ts:79-86 | the reply text, or `'{}'`, is parsed; the call fails with the channel's message exactly when nothing parsed or `issues` is missing, and otherwise returns as many issues as were parsed, all pending |
| GeminiService.EmptyReplyFails | geminiService.ts:113-120 | an empty reply fails with the channel's message |
| GeminiService.TranscriptNotChecked | geminiService.ts:79-82 | a payload with issues and no transcript is accepted as is |
| Review.FindIndex | components/AuditDashboard.tsx:21 | the first issue carrying the id, or none carries it |
| Review.FindIssue | components/AuditDashboard.tsx:21 | `find` by id: found iff some issue carries the id, and then the first such issue |
| Review.FirstPendingIndex | components/AuditDashboard.tsx:92 | the first pending issue in list order, or none is pending |
| Review.FirstPending | components/AuditDashboard.tsx:82 | the issue at the first pending index |
| Review.NextActiveId | components/AuditDashboard.tsx:81-88 | null iff nothing is pending, else the id of the first pending issue |
| Review.UpdateIssues | components/AuditDashboard.tsx:78 | same length and order; issues with the id take status and notes, all others are unchanged |
| Review.PendingCount | components/AuditDashboard.tsx:22 | `filter(pending).length`: at most the number of issues, and zero exactly when no issue is pending |
| Review.PendingCountAfterUpdate | components/AuditDashboard.tsx:77-79 | deciding removes exactly the pending issues with that id from the count |
| Review.PendingWithUniqueId | components/AuditDashboard.tsx:22 | with unique ids, one pending issue per id at most |
| Review.ResolveDecrementsPending | components/AuditDashboard.tsx:77-79 | with unique ids, the pending count drops by one if the decided issue was pending, else stays |
| Review.AdvanceMovesForward | components/AuditDashboard.tsx:81-88 | after deciding the first pending issue, the advance lands strictly after it or on nothing, whether or not ids are unique |
| Playback.AfterTimeUpdate | components/AuditDashboard.tsx:30-40 | when auto-stop is due, paused at the end time; otherwise the transport is unchanged |
| Playback.TimeUpdateIdempotent | components/AuditDashboard.tsx:34-38 | a second check changes nothing more |
| Playback.PlaybackStopsAtEnd | components/AuditDashboard.tsx:34-38 | with auto-stop armed, afterwards paused or short of the end; a moved position is the end time |
| Playback.NoStopWhilePaused | components/AuditDashboard.tsx:34 | a paused transport is never touched by the check |
| Playback.Bind | components/AuditDashboard.tsx:68-75 | when it fires: seeks to the start, pauses, loads the notes or "", re-arms auto-stop; otherwise nothing changes |
| Playback.OnlyBindRearms | components/AuditDashboard.tsx:72 | after unlocking, auto-stop comes back only through a binding that fired |
| Playback.BindInertWithoutStart | components/AuditDashboard.tsx:69 | selecting null or an issue without a start changes nothing |
| Playback.DurationAfterChange | components/AuditDashboard.tsx:42-46 | only a truthy, non-NaN duration replaces the old one |
| Playback.Divisor | components/AuditDashboard.tsx:337 | `duration \|\| 1` is never zero and is the duration when that is set |
| Playback.ProgressFraction | components/AuditDashboard.tsx:353 | the position over `duration \|\| 1` (the quotient times the divisor is the position); in 0..1 for a position within the track |
| Playback.SpanFractions | components/AuditDashboard.tsx:337-338 | left edge `start / (duration \|\| 1)` and width `(end - start) / (duration \|\| 1)`, each pinned by its product with the divisor; together inside the bar for a span within the track |
| Playback.ClockText | components/AuditDashboard.tsx:115-117 | minutes, a colon, and the seconds 0..59 as two digits |
| Playback.ParseClockText | components/AuditDashboard.tsx:113-118 | the clock text reads back to the whole seconds |
| Playback.WholeSeconds | components/AuditDashboard.tsx:115-116 | floor(x/60) and floor(x % 60) are the minutes and seconds of floor(x) |
| Playback.FormatTime | components/AuditDashboard.tsx:113-118 | "0:00" for NaN; the m:ss clock of the whole seconds for a non-negative time; never empty |
| Playback.LengthLabelAsWritten | components/AuditDashboard.tsx:171 | the Length label as written is always the formatted duration: the metadata fallback never applies |
| Playback.SumOfQuotients | components/AuditDashboard.tsx:337-338 | quotients by one non-zero divisor add up to the quotient of the sum, so left edge plus width is the end over the divisor |
| Playback.UnknownDurationReadsZero | components/AuditDashboard.tsx:113-118 | a zero duration is formatted as "0:00" |
| Playback.UnknownDurationHidesMetadata | components/AuditDashboard.tsx:171 | with no duration known, the label as written reads "0:00" despite metadata |
| Playback.LengthLabel | components/AuditDashboard.tsx:171 | the metadata duration while none is known, else the formatted duration |
| TranscriptBinder.BindTranscript | components/AuditDashboard.tsx:427-454 | per line: marked active (`isActiveLine`) iff a truthy active id equals the line's id; resolved iff the line's issue is found and not pending; jump offered iff the line's id is truthy and its issue is missing or pending; the jump target is the line's id, which selecting marks active, and absent when no jump is offered |
| TranscriptBinder.JumpOfferedIff | components/AuditDashboard.tsx:448 | the jump is offered exactly for a line whose issue is missing or still pending |
| AuditDashboard.Dashboard.constructor | components/AuditDashboard.tsx:12-19 | the initial state: the session's issues or [], nothing active, empty notes, auto-stop on, audio present iff the session has results (line 121) and a truthy URL (line 143); a session lacking a transcript is accepted though the transcript rendering (line 426) would throw on it |
| AuditDashboard.Dashboard.ActiveIssue | components/AuditDashboard.tsx:21 | `find` on the active id: none exactly when no issue carries it, else the first issue that does |
| AuditDashboard.Dashboard.PendingCount | components/AuditDashboard.tsx:22 | at most the number of issues; zero ("Audit Complete") exactly when the advance would select nothing |
| AuditDashboard.Dashboard.TotalCount | components/AuditDashboard.tsx:23 | the number of issues, never below the pending count |
| AuditDashboard.Dashboard.LengthField | components/AuditDashboard.tsx:171 | the Length field as written: always the formatted duration, "0:00" while the duration is unknown |
| AuditDashboard.Dashboard.SetActiveIssueId | components/AuditDashboard.tsx:68-75 | sets the id and applies the binding for the change from the old id |
| AuditDashboard.Dashboard.StartAudit | components/AuditDashboard.tsx:91-96 | selects the first pending issue; with none pending, nothing changes |
| AuditDashboard.Dashboard.EditNotes | components/AuditDashboard.tsx:291 | the notes buffer takes the typed text |
| AuditDashboard.Dashboard.HandleStatusChange | components/AuditDashboard.tsx:77-89 | the issues are updated with the notes buffer, and an advance over the updated list is queued; selection, notes and playback are untouched |
| AuditDashboard.Dashboard.Tick | components/AuditDashboard.tsx:81-88 | the oldest advance selects the first pending issue of its own snapshot, or null, whatever was selected meanwhile |
| AuditDashboard.Dashboard.Unlock | components/AuditDashboard.tsx:318-321 | auto-stop off, nothing else |
| AuditDashboard.Dashboard.OnTimeUpdate | components/AuditDashboard.tsx:30-40 | mirrors the position and applies the auto-stop check |
| AuditDashboard.Dashboard.OnDurationChange | components/AuditDashboard.tsx:42-46 | the duration guard on the element's reported duration |
| AuditDashboard.Dashboard.OnPlay | components/AuditDashboard.tsx:48 | playing |
| AuditDashboard.Dashboard.OnPause | components/AuditDashboard.tsx:49 | not playing |
| AuditDashboard.Dashboard.OnEnded | components/AuditDashboard.tsx:50 | not playing |
| AuditDashboard.Dashboard.HandleSeek | components/AuditDashboard.tsx:98-104 | with audio: position and shown time set to the target; without: nothing |
| AuditDashboard.Dashboard.TogglePlay | components/AuditDashboard.tsx:106-111 | pauses if the state says playing, else plays; nothing without audio |
| UploadSection.Substr | components/UploadSection.tsx:46 | `substr(start, length)`: at most `length` characters, taken from `start` |
| UploadSection.ToUpper | components/UploadSection.tsx:46 | same length, each character upper-cased |
| UploadSection.SessionId | components/UploadSection.tsx:46 | "AUD-" then the random text's characters from offset 2, at most 6 of them (so exactly min(6, max(0, length − 2))), upper-case base-36 for a base-36 random text |
| UploadSection.SessionIdKeepsDigits | components/UploadSection.tsx:46 | each code character is the upper-case random digit at the same place |
| UploadSection.FileDay | components/UploadSection.tsx:33 | the file's modification day when `lastModified` is non-zero, else today |
| UploadSection.WithCallDate | components/UploadSection.tsx:41-43 | only `callDate` changes, and only when metadata exists |
| UploadSection.AudioSession | components/UploadSection.tsx:45-52 | the file's name, an audio URL, completed, the results with the file date |
| UploadSection.TextSession | components/UploadSection.tsx:73-79 | "Manual Submission", no audio URL, completed, the results with today's date |
| UploadSection.Uploader.constructor | components/UploadSection.tsx:12-14 | not processing, no error, empty transcript |
| UploadSection.Uploader.EditTranscript | components/UploadSection.tsx:133 | the transcript buffer takes the typed text |
| UploadSection.Uploader.HandleTranscriptSubmit | components/UploadSection.tsx:62-67 | a blank transcript changes nothing and sends nothing; otherwise processing, error cleared, the transcript sent |
| UploadSection.Uploader.FinishTranscriptSubmit | components/UploadSection.tsx:68-84 | success completes the text session; failure sets the fixed message and completes nothing; not processing either way |
| UploadSection.Uploader.HandleFileUpload | components/UploadSection.tsx:25-35 | no file changes nothing; a setup failure sets the fixed message and stops processing; otherwise processing with the file's DD/MM/YYYY date |
| UploadSection.Uploader.FinishAudioAnalysis | components/UploadSection.tsx:37-54 | success completes the audio session and stops processing; failure changes nothing |
| App.RenderContent | App.tsx:29-47 | the dashboard iff a session exists on the audit tab; the landing page iff none exists there; otherwise the tab's view |
| App.AppState.constructor | App.tsx:14-18 | audit tab, no session, empty history |
| App.AppState.Render | App.tsx:29-47 | the dashboard of the current session iff there is one and the audit tab is open; the landing page iff there is none on the audit tab |
| App.AppState.HandleAuditComplete | App.tsx:20-23 | the session becomes current and is prepended to an otherwise unchanged history |
| App.AppState.ResetAudit | App.tsx:25-27 | no current session; tab and history untouched |
| App.AppState.SetCurrentTab | App.tsx:102 | the tab changes; session and history untouched |
| App.AppState.OnResetHome | App.tsx:102 | no session, audit tab, so the landing page shows |
| App.AppState.SelectSession | App.tsx:42 | the chosen session becomes current; history untouched |
| App.AppState.ViewFromHistory | components/ComplianceHistoryView.tsx:107 | select then navigate: the dashboard for the chosen session |
| Analytics.RoundHalfUp | components/AnalyticsDashboardView.tsx:31 | `Math.round(num / den)`: within half of the quotient, halves up |
| Analytics.ComputeStats | components/AnalyticsDashboardView.tsx:29-34 | count or 124; rounded mean of scores (missing = 0) or 24; count above 60 or 3; "92%" |
| Analytics.TotalScore | components/AnalyticsDashboardView.tsx:31 | the `reduce` sum of scores (missing = 0); with every score in 0..100 it lies in 0..100·n |
| Analytics.CriticalCount | components/AnalyticsDashboardView.tsx:32 | the `filter(> 60).length`, never above the history length |
| Analytics.CriticalCountZeroIff | components/AnalyticsDashboardView.tsx:32 | no critical case iff no score is above 60 |
| Analytics.CriticalFallback | components/AnalyticsDashboardView.tsx:32 | with no score above 60 the card reads the fallback 3 |
| Analytics.AverageInRange | components/AnalyticsDashboardView.tsx:31 | with scores in 0..100 the average lies in 0..100 |
| ComplianceHistory.DisplayHistory | components/ComplianceHistoryView.tsx:12-35 | the history when non-empty, else the two completed placeholders: AUD-83921, `sales_call_john_doe.mp3`, score 68, a red (High) badge, call date 28/12/2025; and AUD-83920, `interaction_premium_plus.mp3`, score 12, a green (Low) badge, call date 27/12/2025 |
| ComplianceHistory.LevelBand | components/ComplianceHistoryView.tsx:88-92 | red exactly for High, orange exactly for Medium, green otherwise |
| ComplianceHistory.ScoreBand | components/ComplianceHistoryView.tsx:97-101 | red iff the score (missing = 0) is above 60, green iff at most 30 |
| ComplianceHistory.DateColumn | components/ComplianceHistoryView.tsx:85 | `callDate` when non-empty, else the timestamp's DD/MM/YYYY, which reads back to that day |
| ComplianceHistory.LevelAndScoreMayDisagree | components/ComplianceHistoryView.tsx:88-101 | the badge and the score colour are independent: "Low" with 45 is green beside orange |
| RiskChart.GaugeBand | components/RiskChart.tsx:17-21 | green iff below 30, orange iff 30..59, red iff 60 or more |
| RiskChart.ThresholdBand | components/RiskChart.tsx:45 | green iff at most 30, orange iff 31..60, red iff above 60 |
| RiskChart.GaugeBandMonotone | components/RiskChart.tsx:17-21 | a higher score never gets a milder gauge colour |
| RiskChart.ThresholdBandMonotone | components/RiskChart.tsx:45 | a higher score never gets a milder number colour |
| RiskChart.BandsDisagreeAtBoundaries | components/RiskChart.tsx:17-45 | the colourings differ exactly at 30 (orange gauge, green number) and 60 (red, orange), the gauge one band more severe |
| RiskChart.ChartBands | components/RiskChart.tsx:17-45 | for a present score, the gauge and number colourings; for a missing one, a red gauge (every comparison fails) and a green number |
| RiskChart.GaugeData | components/RiskChart.tsx:12-15 | two slices, Risk = score and Safe, summing to 100 |

## Left out

- The generative-model client, the prompts and the response schema: remote calls to a foreign library. `JSON.parse` is an abstract partial function given as a parameter.
- Reading the file as base64 and `URL.createObjectURL`: browser I/O. The object URL is a parameter.
- `new Date()`, `Math.random()`, `toISOString()`: ambient values, passed in as local calendar fields and texts. How `Date` maps a timestamp or an ISO text to calendar fields is not modelled. An invalid date is not modelled either.
- The real audio element: playback advancing by itself, and the registration and removal of event listeners. React's effect scheduling and re-rendering are not modelled. Events are explicit methods. An effect runs together with the state change it is keyed on.
- The 450 ms timer's wall-clock delay: an advance is a queued snapshot fired by `Tick`. The delay itself has no meaning.
- Component state across remounts: switching tabs unmounts the dashboard and loses its review state. No entity in the model carries that.
- JSX markup, styling, print CSS, the Header and RiskRulesView components, the recharts rendering, the mock trend and category data, and UploadSection's tab switch: presentation only.
- Floating point: times are `real`; NaN is `None`. Infinity is not modelled, and neither is the exponent notation `toString` uses for huge numbers.
- UploadSection.ToUpper: upper-cases ASCII only; only base-36 digits ever reach it.
- UploadSection.Substr: non-negative arguments only, which is all the source passes.
- RiskChart.GaugeData: a missing score is not modelled; the gauge would then be drawn from undefined and NaN slice values.
- Playback.FormatTime: for a negative time only the length is stated; the element never reports one.

## Findings

| source | as written | input that shows it | evidently intended | confidence | as-written member | corrected member |
|---|---|---|---|---|---|---|
| components/AuditDashboard.tsx:171 | the Length field is `formatTime(duration) \|\| results.metadata?.duration`; `formatTime` never returns "", so the fallback is dead | a transcript session (no audio, duration stays 0) whose metadata duration is "08:24": the field reads "0:00" | show the metadata duration while the player knows no duration | not executed | Playback.UnknownDurationHidesMetadata | Playback.LengthLabel |

`AuditDashboard.Dashboard.LengthField` models the field as the code writes it. `Playback.LengthLabel` is the intended label, stated beside it; the dashboard class does not use it.
