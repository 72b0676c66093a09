# Meeting recorder core, modelled in Dafny

The recorder joins a Teams meeting with a headless browser and records it with
ffmpeg. Its core is made of four parts:

- **Session registry and state machine** (`recording_service.go`, `session.go`).
  This is a map from session id to a session record. `StartRecording` creates
  a session in `initializing`. Two background goroutines then take it to
  `joining` and `recording`, or to `error`. `StopRecording` takes a recording
  session to `stopped` (or to `error`), and `GetSessionPlatform` reads a
  session back, refreshing the duration while it is recording.
- **Media recorder bookkeeping** (`recorder_adapter.go`). It keeps three
  per-session handle maps (video command, audio command, video stdin). It
  derives deterministic file names, and `Stop` shuts the audio down by
  interrupting it first and killing it only on timeout.
- **Browser automator bookkeeping** (`rod_adapter.go`). It keeps per-session
  browser, page and stop-signal maps. `StopMeeting` closes a signal at most
  once, and the lookups fail with "page not found".
- **The Teams deep-link rewrite** (`rod_adapter.go`). It is modelled as a pure
  string function over models of Go's `strings.Index`, `strings.Contains`
  and `strings.Split`. `Split` is modelled only for a non-empty separator.
  Strings are sequences of characters rather than Go's bytes, which agrees
  with Go for the ASCII separators the rewrite searches for.

Modules:

| file | module | what it holds |
|---|---|---|
| `outcomes.dfy` | `Outcomes` | `Option`, `Result`, `Outcome` (Go's `error`: `Pass` for nil), `byte` |
| `go_strings.dfy` | `GoStrings` | `strings.Index`, `Contains`, `Split`, `Join` and `%d`, with their laws |
| `session.dfy` | `Domain` | `SessionStatus`, `MeetingSession`, `CalculateDuration` |
| `recording_service.dfy` | `Services` | the `RecordingService` class, its invariant, and scenarios |
| `recorder_adapter.dfy` | `Ffmpeg` | file names, the `FfmpegRecorder` class, and the audio shutdown plan |
| `rod_adapter.dfy` | `Rod` | the deep-link rewrite, and the `RodAdapter` and `StopSignal` classes |

Collaborators are represented by the results they return, passed in as
parameters:

- the browser launch and join flow, `GetMeetingStreams`, the recorder's
  `Start`/`Stop`, `StopMeeting`, and the screenshot;
- process wait results, and whether the audio process exited within its
  grace period.

`time.Now()` reads an integer `clock` field that `AdvanceClock` moves forward.
`uuid.New()` becomes an id the caller supplies, required to be fresh.

The two goroutines of `StartRecording` become explicit steps:

- `BeginJoin` sets the status to joining;
- `FinishJoin(joined)` handles the join result;
- `RunStreams(streams, recorderStart)` handles the streams and the recorder start.

A ghost map `tasks` records, for each session, how far its goroutines have
come. The class invariant `Valid()` ties every stored session to that
position and to the clock:

- times are not in the future, and an end time comes after its start time;
- an error message is present exactly in `error`;
- nothing but the status is written before the join succeeds;
- a stopped session has the duration between its start and end times.

Every public operation and every goroutine step preserves the invariant.
The two private helpers `UpdateStatus` and `UpdateError` neither require nor
keep it on their own; the steps that call them re-establish it. Each
operation states its whole new registry in terms of the old one, and each one only moves a status forward
along the lifecycle, or into `error`, which is final (`Advances`).

## Model

| member | source | states |
|---|---|---|
| Domain.StatusNameInjective | internal/core/domain/session.go:9-16 | the six status constants have six distinct string values, so a status is exactly one of the six |
| Domain.CalculateDuration | internal/core/domain/session.go:30-35 | with both timestamps set, the duration becomes end minus start; with either unset the record is unchanged; no field but the duration is ever touched |
| Domain.CalculateDurationIdempotent | internal/core/domain/session.go:30-35 | calculating the duration twice gives the same record as calculating it once |
| Services.RecordingService.constructor | internal/core/services/recording_service.go:22-28 | a new service has an empty registry and satisfies the invariant |
| Services.RecordingService.StartRecording | internal/core/services/recording_service.go:31-42 | the returned session is initializing, with no start time and the given URL and name; it is stored under its fresh id, and no other entry changes |
| Services.RecordingService.BeginJoin | internal/core/services/recording_service.go:45-50 | the join goroutine sets the session to joining, and changes nothing else |
| Services.RecordingService.FinishJoin | internal/core/services/recording_service.go:51-61 | a join failure puts the session in error with "Failed to join: " + the error, and leaves the start time unset; a success makes it recording and stamps the start time now |
| Services.RecordingService.RunStreams | internal/core/services/recording_service.go:63-73 | a stream failure ("Failed to get streams: ") or a recorder failure ("Recorder failed: ") puts the session in error, whatever state it had reached; the recorder is called only after the streams succeed; success changes nothing |
| Services.RecordingService.StopRecording | internal/core/services/recording_service.go:79-114 | an unknown id gives no session, "session not found" and an unchanged registry; a session that is not recording is returned unchanged, and no collaborator is called; a recorder failure leaves it in error with "Failed to stop recorder: ...", returns that error, skips StopMeeting and leaves the end time unset; otherwise the session ends stopped with the recorder's path, end time now and duration now minus start, whatever StopMeeting returns |
| Services.RecordingService.GetSessionPlatform | internal/core/services/recording_service.go:116-132 | an unknown id gives "session not found"; the duration is recomputed as now minus start only for a recording session with a start time; otherwise nothing changes |
| Services.RecordingService.UpdateStatus | internal/core/services/recording_service.go:134-140 | sets the status of a stored session and nothing else; an unknown id leaves the registry unchanged |
| Services.RecordingService.UpdateError | internal/core/services/recording_service.go:142-149 | sets a stored session to error with the message and nothing else; an unknown id leaves the registry unchanged |
| Services.ErrorIsFinal | internal/core/services/recording_service.go:50-111 | a status change that keeps to the lifecycle never leaves error |
| Services.AdvancesTransitive | internal/core/services/recording_service.go:50-111 | a chain of lifecycle-respecting status changes respects the lifecycle overall |
| Services.JoinFailure | internal/core/services/recording_service.go:50-55 | after a failed join, the status read reports error with "Failed to join: launch failed", and no start time and no duration |
| Services.DurationGrows | internal/core/services/recording_service.go:126-129 | for any join time and any two elapsed times, the durations read back while the session records are the time since the join: first the first elapsed time, then the sum of both |
| Services.RecordingService.AdvanceClock | internal/core/services/recording_service.go:59 | the clock reading behind `time.Now()` moves forward by the elapsed time; the registry and goroutine positions are unchanged and the invariant is kept |
| Services.StoppedSessionDuration | internal/core/services/recording_service.go:108-111 | under the invariant, every stored stopped session has a start and an end time, in order and not after now, and the non-negative duration between them |
| Services.RecordThenStop | internal/core/services/recording_service.go:100-113 | a recording stopped ten ticks after its join is stopped with the recorder's path, end time and a duration of ten, even when StopMeeting fails |
| Services.StopTwice | internal/core/services/recording_service.go:84-90 | a second stop calls no collaborator and returns the stopped session unchanged; an unknown id is "session not found" |
| Services.EarlyStopAndLateFailure | internal/core/services/recording_service.go:63-72 | a stop during the join does nothing; a late stream failure puts even a stopped session into error |
| GoStrings.Contains | internal/adapters/secondary/rod/rod_adapter.go:110 | `strings.Contains`: the first occurrence exists (ContainsIff relates it to any occurrence) |
| GoStrings.Split | internal/adapters/secondary/rod/rod_adapter.go:111-119 | `strings.Split` for a non-empty separator: at least one piece, the pieces around every non-overlapping occurrence from left to right (partners SplitJoin, SplitPiecesExclude, SplitHead) |
| GoStrings.FormatInt | internal/adapters/secondary/ffmpeg/recorder_adapter.go:35 | `%d`: a leading minus exactly for a negative number, digits only otherwise |
| GoStrings.IndexOf | internal/adapters/secondary/rod/rod_adapter.go:110-119 | the result is an occurrence of the separator with none before it, or no occurrence at all |
| GoStrings.ContainsIff | internal/adapters/secondary/rod/rod_adapter.go:110 | Contains holds exactly when the text occurs somewhere |
| GoStrings.BeforeSpec | internal/adapters/secondary/rod/rod_adapter.go:114 | the text before the first separator is a prefix without the separator, followed by the separator or by the end |
| GoStrings.SplitJoin | internal/adapters/secondary/rod/rod_adapter.go:111 | joining the pieces of a split with its separator gives back the input |
| GoStrings.SplitPiecesExclude | internal/adapters/secondary/rod/rod_adapter.go:111 | no piece of a split contains the separator |
| GoStrings.SplitHead | internal/adapters/secondary/rod/rod_adapter.go:111-114 | a split has a second piece exactly when the separator occurs; the first piece is the text before it, and the second is the text up to the next occurrence |
| GoStrings.ParseFormatNat | internal/adapters/secondary/ffmpeg/recorder_adapter.go:35 | reading back the decimal digits of a number gives the number |
| GoStrings.FormatIntInjective | internal/adapters/secondary/ffmpeg/recorder_adapter.go:35 | distinct integers print distinctly under %d |
| Ffmpeg.JoinPath | internal/adapters/secondary/ffmpeg/recorder_adapter.go:36 | joining to an empty directory gives the name; otherwise a directory ending in "/" is followed directly by the name, any other by "/" and the name; the path always ends with the name |
| Ffmpeg.VideoFileName | internal/adapters/secondary/ffmpeg/recorder_adapter.go:35 | "meeting-<id>-<unix seconds>.mp4"; it ends in ".mp4" |
| Ffmpeg.AudioFileName | internal/adapters/secondary/ffmpeg/recorder_adapter.go:53 | "meeting-<id>-audio.wav"; it ends in ".wav" |
| Ffmpeg.VideoPath | internal/adapters/secondary/ffmpeg/recorder_adapter.go:35-36 | the video file name joined to the directory; it ends in ".mp4" |
| Ffmpeg.AudioPath | internal/adapters/secondary/ffmpeg/recorder_adapter.go:53-54 | the audio file name joined to the directory; it ends in ".wav" |
| Ffmpeg.JoinPathInjective | internal/adapters/secondary/ffmpeg/recorder_adapter.go:36 | within one directory, different names give different paths |
| Ffmpeg.VideoPathDistinctTimes | internal/adapters/secondary/ffmpeg/recorder_adapter.go:35-36 | recordings of a session started in different seconds write different video files |
| Ffmpeg.AudioPathDeterminesSession | internal/adapters/secondary/ffmpeg/recorder_adapter.go:53-54 | the audio path determines the session id |
| Ffmpeg.VideoAudioPathsDiffer | internal/adapters/secondary/ffmpeg/recorder_adapter.go:35-54 | a video path and an audio path are never the same file |
| Ffmpeg.AudioShutdown | internal/adapters/secondary/ffmpeg/recorder_adapter.go:117-131 | the audio process is interrupted first; it is killed exactly when it has not exited within the grace period, and at most once |
| Ffmpeg.FfmpegRecorder.constructor | internal/adapters/secondary/ffmpeg/recorder_adapter.go:24-32 | three empty maps over one directory |
| Ffmpeg.FfmpegRecorder.Start | internal/adapters/secondary/ffmpeg/recorder_adapter.go:34-94 | a pipe failure is returned with nothing registered; otherwise the video path, the audio path (with whether audio started) and the stdin are registered before the video start, whose error is returned; a failed audio start is not an error |
| Ffmpeg.FfmpegRecorder.Stop | internal/adapters/secondary/ffmpeg/recorder_adapter.go:96-140 | with nothing registered: ("", "no active recording for session <id>"), no action, and the maps unchanged; otherwise stdin is closed, the video is waited for, a started audio process is shut down as AudioShutdown says, all three entries are removed whatever the wait gave, and "check recordings directory" is returned with the wait error |
| Ffmpeg.StopTwice | internal/adapters/secondary/ffmpeg/recorder_adapter.go:103-105 | a second Stop after a completed one gives "no active recording" and performs no action |
| Ffmpeg.FailedVideoStartThenStop | internal/adapters/secondary/ffmpeg/recorder_adapter.go:71-79 | a failed video start returns its error but leaves the entries installed, so a later Stop clears them; an audio process that never started is not signalled |
| Rod.RewriteMeetingUrl | internal/adapters/secondary/rod/rod_adapter.go:109-125 | the rewrite step by step with Contains and Split: a link without the marker is unchanged, any other becomes a link starting "https://teams.live.com/_#/meet/" (RewriteSpec gives its exact form) |
| Rod.IntendedRewrite | internal/adapters/secondary/rod/rod_adapter.go:115-122 | the corrected rewrite, with p read as the query parameter named p: a link without the marker is unchanged, any other becomes a deep link |
| Rod.RewriteSpec | internal/adapters/secondary/rod/rod_adapter.go:109-125 | a link without "teams.live.com/meet/" is unchanged; any other becomes "https://teams.live.com/_#/meet/<id>?p=<p>&anon=true" with the meeting id and p value below |
| Rod.RewriteGuardHolds | internal/adapters/secondary/rod/rod_adapter.go:110-112 | where the marker occurs, the split has a second piece, so the rewrite always happens |
| Rod.RewritePieces | internal/adapters/secondary/rod/rod_adapter.go:111-114 | the remaining text starts the text after the first marker and holds no marker; the meeting id starts the remaining text and holds no "?" |
| Rod.PValueHasNoAmpersand | internal/adapters/secondary/rod/rod_adapter.go:115-121 | the p value never holds "&" |
| Rod.TeamsLinkRemaining | internal/adapters/secondary/rod/rod_adapter.go:110-113 | in "https://teams.live.com/meet/<rest>" the marker is found, and when rest holds no "t" (so no second marker) the remaining text is all of rest |
| Rod.SkipLinkRemaining | internal/adapters/secondary/rod/rod_adapter.go:111-114 | for "…/meet/<id>?<name>p=<x>&p=<v>" the remaining text is everything after the marker, and the meeting id is <id> |
| Rod.SkipLinkPValue | internal/adapters/secondary/rod/rod_adapter.go:115-121 | for such a link the p value as computed is <x>, the value of the parameter whose name ends in p |
| Rod.RewriteTakesEarlierValue | internal/adapters/secondary/rod/rod_adapter.go:109-125 | for such a link the rewrite as written produces p=<x>, not p=<v> |
| Rod.ParamValueFirst | internal/adapters/secondary/rod/rod_adapter.go:115-121 | the value looked up for a key is that of the first parameter with the key |
| Rod.ParamValueAbsent | internal/adapters/secondary/rod/rod_adapter.go:115-121 | without a parameter with the key, the value is empty |
| Rod.IntendedRewriteFindsP | internal/adapters/secondary/rod/rod_adapter.go:115-122 | the corrected rewrite carries the value of the first query parameter named p |
| Rod.IntendedRewriteWithoutP | internal/adapters/secondary/rod/rod_adapter.go:115-122 | without a parameter named p, the corrected rewrite carries an empty p |
| Rod.SkipLinkPairs | internal/adapters/secondary/rod/rod_adapter.go:114-119 | for such a link the query parameters are "<name>p=<x>" and "p=<v>" |
| Rod.IntendedRewriteTakesP | internal/adapters/secondary/rod/rod_adapter.go:115-122 | for such a link the corrected rewrite produces p=<v> |
| Rod.StopSignal.Close | internal/adapters/secondary/rod/rod_adapter.go:273 | a signal can be closed only while open, and is closed afterwards |
| Rod.RodAdapter.constructor | internal/adapters/secondary/rod/rod_adapter.go:27-33 | three empty maps |
| Rod.RodAdapter.JoinMeeting | internal/adapters/secondary/rod/rod_adapter.go:58-135 | a failed launch returns "failed to launch browser: ..." and registers nothing; otherwise the browser and a fresh open stop signal are registered, then the page, and other sessions' signals are kept; the page is sent to the link RewriteMeetingUrl builds; the result is nil on reaching the lobby, else the 45-second error, with all three entries left registered |
| Rod.RodAdapter.StopMeeting | internal/adapters/secondary/rod/rod_adapter.go:266-285 | the session's stop signal, if any, is closed and removed; a registered browser is removed with its page and the close error returned; without one the result is nil; other sessions keep their open signals |
| Rod.RodAdapter.GetSnapshot | internal/adapters/secondary/rod/rod_adapter.go:287-296 | without a page, "page not found for session <id>"; otherwise the screenshot result; nothing changes |
| Rod.RodAdapter.GetMeetingStreams | internal/adapters/secondary/rod/rod_adapter.go:298-344 | without a page, "page not found for session <id>"; otherwise the stream of that page and a nil audio stream; nothing changes |
| Rod.StopMeetingTwice | internal/adapters/secondary/rod/rod_adapter.go:272-284 | a second StopMeeting succeeds and closes no signal twice; afterwards the lookups fail |
| Rod.FailedJoinKeepsPage | internal/adapters/secondary/rod/rod_adapter.go:100-102 | a join that never reaches the lobby leaves the page registered, so its streams can still be fetched |

## Left out

- The registry holds session values, not pointers. Every write the source makes through a `*MeetingSession` is an update of the map entry. The caller of `StartRecording` and `StopRecording` therefore gets a copy, and the model does not capture aliasing: the source's shared pointer would later show the goroutines' writes.
- Domain.CalculateDuration: a function returning the updated record, not a pointer-receiver method, because sessions are values in the registry.
- `StopRecording` is taken as one step. In the source, locks are taken only around each map access, so other operations could observe the transient `stopping` status, and racy reads of `Status` are possible. Mutexes, goroutine scheduling and data races are not modelled.
- The goroutines of `StartRecording` run through explicit step methods. Only the interleavings that a caller builds from those steps are covered.
- `StopRecording`, recorder failure: the code returns right after `updateError`. It does not call `StopMeeting` and leaves the end time unset; the model follows the code.
- `Duration`: the source stores `time.Duration.String()`; the model stores the integer number of clock ticks (None for the empty string). Floating-point seconds and the string formatting are not modelled.
- `uuid.New()` and `time.Now()` are inputs: an id required to be fresh, and the integer clock. The Unix second of the video file name is a parameter of `Start`.
- ffmpeg processes are not modelled: `exec.Command`, `StdinPipe`, `io.Copy` pumping, `Wait`, `Signal` and `Kill`, and the 2-second timer. Their results are parameters, and `Stop` returns the actions it takes in order.
- `os.MkdirAll` in `NewFFmpegRecorder` is left out (file system).
- Ffmpeg.JoinPath: models `filepath.Join` only for a clean directory and a name without separators. The path cleaning (`.` and `..` segments, repeated slashes) is not modelled. For the directory `./recordings` that the program is configured with, Go gives `recordings/meeting-…` and the model gives `./recordings/meeting-…`.
- Browser automation in `JoinMeeting` is not modelled: the launcher flags, the permission grant, the injected script, the 45-second polling loop and the sleeps. The panics of the `Must…` calls are left out too. The join flow is represented by whether the lobby was reached.
- `monitorMeetingStatus` and the screenshot goroutine are not modelled (tickers, `select` over channels, `io.Pipe`). `GetMeetingStreams` returns the page as the video stream.
- The HTTP handler, `main.go` and the port interfaces are thin glue and are not modelled.

## Findings

| source | as written | input that shows it | evidently intended | confidence | as-written member | corrected member |
|---|---|---|---|---|---|---|
| internal/adapters/secondary/rod/rod_adapter.go:116-119 | `p` is read after the first "p=" anywhere in the text after the marker, including inside another parameter's name | `https://teams.live.com/meet/123?skip=1&p=abc` is rewritten with `p=1` | the value of the query parameter named `p`: `p=abc` | medium, not executed | Rod.RewriteTakesEarlierValue | Rod.IntendedRewriteTakesP |

The two lemmas are proved for every link
`https://teams.live.com/meet/<id>?<name>p=<x>&p=<v>` whose pieces contain
none of `t`, `?`, `p` and `&`, and whose `<name>` is not empty. The input
above is the instance with id `123`, name `ski`, x `1` and v `abc`.
