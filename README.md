# ARControl Sport Live Cam — a verified model of its control logic

ARControl Sport Live Cam is a browser mock-up of a live sports-production
console, with an Android splash screen in Kotlin. Nearly all of it renders
fixed content. This project models the parts that hold real state and
proves properties about them:

- the **match engine**: a score that never goes negative, a match clock that
  ticks only while running and prints as `MM:SS`, and a newest-first replay
  log capped at 8 entries;
- the **replay engine**: `evt_<last five digits of the clock>` ids, a queue
  capped at 6, an active clip and the playback speed;
- the **boot sequencer**: four timed phases whose progress is interpolated
  and clamped, ending in `Ready` or in `Error(message)`, with retry;
- the **switcher**: the nine-source table, the take that moves the T-bar by
  4 on every 15 ms tick and commits the captured preview at 100, preview
  selection, the transition type and the frame-drop counter;
- the **match protocol checklist**: 25 tasks in five phases, checkbox
  toggling, phase status, and the rounded progress percentage;
- the **audio mixer**: updates by channel id, mute / AFV / lock / delay
  buttons, a meter floored at -60 dB, and auto-ducking;
- the **connectivity hub**: the per-source sliding jitter window, the
  sync-delay slider and the sparkline's scale;
- the **health strip**: green / yellow / red thresholds;
- the **pipeline walkthrough**: ten stages lit in turn.

Each file has one flavour:

- **Pure**: values and formatting are datatypes, functions and lemmas.
- **Stateful**: each React component or the Kotlin ViewModel is a `class`
  whose fields are its state. Every method's `ensures` ties the new state
  to a pure step function of the old state, and the lemmas about that
  function carry the properties.

Time, clock readings, ids derived from `Date.now()`, locale timestamps and
random draws are all parameters.

Files:

| file | module | models |
|---|---|---|
| `text.dfy` | `Text` | `Number#toString`, `padStart`, `indexOf`, `replace` of one character, replace-all |
| `types.dfy` | `Types` | the shared records and enumerations of `types.ts` |
| `bounded_log.dfy` | `BoundedLog` | `[e, ...prev].slice(0, n)` |
| `sports_engine.dfy` | `SportsEngine` | `components/SportsEngineControl.tsx` |
| `replay_engine.dfy` | `Replay` | `components/ReplayEngine.tsx` |
| `boot_state.dfy` | `Boot` | `splash/BootState.kt` |
| `splash_view_model.dfy` | `Splash` | `splash/SplashViewModel.kt` |
| `dashboard.dfy` | `Switcher` | `components/Dashboard.tsx` |
| `match_protocol.dfy` | `Checklist` | `components/MatchProtocol.tsx` |
| `audio_mixer.dfy` | `Mixer` | `components/AudioMixer.tsx` |
| `connectivity_hub.dfy` | `Connectivity` | `components/ConnectivityHub.tsx` |
| `health_monitor.dfy` | `Health` | `components/HealthMonitor.tsx` |
| `system_flow.dfy` | `Flow` | `components/SystemFlow.tsx` |

## Where the documentation and the code differ

- **Retry guard.** The KDoc of `retry()` (`splash/SplashViewModel.kt:51`)
  says it is for "a recoverable error", and the splash screen offers the
  button only in the `Error` state (`splash/SplashScreen.kt:83`). The
  function itself (`splash/SplashViewModel.kt:53-55`) has no guard and
  calls `startBootProcess()` whatever the state. `Splash.SplashViewModel.Retry`
  follows the code and has no guard.

## Model

| member | source | states |
|---|---|---|
| Text.Decimal | components/SportsEngineControl.tsx:33 | `toString()` of a natural is a non-empty string of digits with no leading zero; it is one character long exactly when the number is below 10 |
| Text.DecimalRoundTrip | components/SportsEngineControl.tsx:33 | reading the decimal digits back gives the number |
| Text.PadStart | components/SportsEngineControl.tsx:33 | `padStart` keeps the string as its suffix, fills the front with the fill character and has length max(length, width) |
| Text.LeadingZerosIgnored | components/SportsEngineControl.tsx:33 | zeros added in front do not change the value the digits denote |
| Text.IndexOf | components/SportsEngineControl.tsx:179 | the index is below the length exactly when the character occurs, and then it is the first occurrence |
| Text.ReplaceFirst | components/SportsEngineControl.tsx:179 | `replace` with a one-character pattern changes only the first occurrence and leaves a string without it unchanged |
| Text.ReplaceFirstAt | components/SportsEngineControl.tsx:179 | replacing the first occurrence at index k rewrites exactly that character |
| Types.ParseSport | types.ts:11-16 | the parser accepts exactly the four sport names, each back to its own constant |
| Types.ParseTransition | types.ts:18 | the parser accepts exactly `CUT`, `FADE` and `WIPE`, each back to its own constant |
| Types.ParseStatus | types.ts:51 | the parser accepts exactly the three source statuses, each back to its own constant |
| Types.ParseReplayType | types.ts:70 | the parser accepts exactly `GOAL`, `FOUL` and `MANUAL`, each back to its own constant |
| BoundedLog.PushFront | components/SportsEngineControl.tsx:52 | the new entry comes first, the older entries follow in order, and the length is min(old length + 1, cap) |
| BoundedLog.PushFrontKeepsPrefix | components/ReplayEngine.tsx:18 | with a positive cap, the result is the new entry followed by the first cap-1 older entries |
| BoundedLog.PushAllNewestFirst | components/ReplayEngine.tsx:18 | after several pushes, the log is the pushed entries newest first, then the old log, cut to the cap |
| BoundedLog.LastPushedRetained | components/SportsEngineControl.tsx:52 | once at least cap entries have been pushed, the log holds exactly the last cap of them, newest first |
| BoundedLog.PushAllBounded | components/SportsEngineControl.tsx:52 | after several pushes, the length is min(old length + number pushed, cap) |
| SportsEngine.TwoDigits | components/SportsEngineControl.tsx:33 | the padded field has at least two characters, all digits |
| SportsEngine.TwoDigitsValue | components/SportsEngineControl.tsx:33 | the padded field reads back as the number, and it is exactly two characters when the number is below 100 |
| SportsEngine.FormatTime | components/SportsEngineControl.tsx:30-34 | the clock text is at least five characters long, with a colon three characters from the end |
| SportsEngine.FormatTimeEndsInSeconds | components/SportsEngineControl.tsx:32-33 | the clock text ends in the seconds within the minute, padded to two digits |
| SportsEngine.FormatTimeRoundTrip | components/SportsEngineControl.tsx:30-34 | parsing the clock text gives back whole minutes and seconds (below 60) of the elapsed milliseconds |
| SportsEngine.ParseJoined | components/SportsEngineControl.tsx:33 | a minutes field and a seconds field joined by a colon parse back to their two values |
| SportsEngine.FormatTimeReading | components/SportsEngineControl.tsx:30-34 | below 100 minutes, the text is exactly the digits of the minutes, a colon, and the digits of the seconds |
| SportsEngine.FormatTimeExamples | components/SportsEngineControl.tsx:30-34 | 0 ms prints 00:00, 61 s prints 01:01, 3599 s prints 59:59, one hour prints 60:00 |
| SportsEngine.ScoreUpdate | components/SportsEngineControl.tsx:36-43 | the chosen team's score becomes max(0, score + increment); the other team and every other field are unchanged |
| SportsEngine.MarkReplay | components/SportsEngineControl.tsx:50-53 | a replay entry with the formatted clock goes first, and the log keeps at most 8 entries |
| SportsEngine.Scored | components/SportsEngineControl.tsx:36-48 | a score press updates the score, and it logs `GOAL TEAM A/B` exactly when the increment is positive |
| SportsEngine.ClockTick | components/SportsEngineControl.tsx:19-28 | a tick adds 1000 ms while the clock runs, does nothing while it is paused, and touches nothing but the time |
| SportsEngine.ClockToggled | components/SportsEngineControl.tsx:116 | the running flag flips and everything else is kept |
| SportsEngine.WithSport | components/SportsEngineControl.tsx:66 | the sport becomes the chosen one and everything else is kept |
| SportsEngine.EventLabelSplitsAtFirst | components/SportsEngineControl.tsx:179 | an event's label is its tag with only the first underscore turned into a space |
| SportsEngine.EventLabelPlain | components/SportsEngineControl.tsx:179 | a tag without an underscore is shown unchanged |
| SportsEngine.CommandsPreserveValid | components/SportsEngineControl.tsx:19-66 | every command keeps both scores non-negative, the time non-negative and the log within 8 entries |
| SportsEngine.ScoreRunValid | components/SportsEngineControl.tsx:36-53 | any run of score presses keeps both scores non-negative and the log within 8 entries |
| SportsEngine.ScoreRunLog | components/SportsEngineControl.tsx:36-53 | after a run of score presses, the log holds min(old + number of positive presses, 8) entries |
| SportsEngine.FourGoalsThenMinusTen | components/SportsEngineControl.tsx:41 | four goals and then -10 leave the score at 0, not -6, with four goal entries logged |
| SportsEngine.RunClockAppend | components/SportsEngineControl.tsx:19-28 | running two input sequences in a row equals running their concatenation |
| SportsEngine.RunningSeconds | components/SportsEngineControl.tsx:19-28 | n seconds on a running clock add exactly 1000·n ms and change nothing else |
| SportsEngine.PausedSeconds | components/SportsEngineControl.tsx:19-28 | seconds on a paused clock change nothing |
| SportsEngine.StartThreeSecondsPause | components/SportsEngineControl.tsx:19-28 | start, 3 seconds, pause, then any wait: the clock shows 3000 ms more |
| SportsEngine.SportsEngineControl.constructor | components/SportsEngineControl.tsx:6-16 | the initial match (football, 0–0, period 1, clock stopped at 0) and an empty log |
| SportsEngine.SportsEngineControl.HandleScore | components/SportsEngineControl.tsx:36-48 | the new state is `Scored` of the old state |
| SportsEngine.SportsEngineControl.TriggerReplay | components/SportsEngineControl.tsx:50-53 | the log becomes `MarkReplay` of the old log at the current clock, and the match is unchanged |
| SportsEngine.SportsEngineControl.Tick | components/SportsEngineControl.tsx:19-28 | the match becomes `ClockTick` of the old match |
| SportsEngine.SportsEngineControl.ToggleClock | components/SportsEngineControl.tsx:116 | the match becomes `ClockToggled` of the old match |
| SportsEngine.SportsEngineControl.SelectSport | components/SportsEngineControl.tsx:66 | the match becomes `WithSport` of the old match |
| Replay.LastFive | components/ReplayEngine.tsx:12 | `slice(-5)` keeps the last five characters, or the whole string when it is shorter |
| Replay.EventId | components/ReplayEngine.tsx:12 | an id is `evt_` followed by one to five digits |
| Replay.EventIdDigits | components/ReplayEngine.tsx:12 | the digits of an id denote the clock value mod 100000, and there are five of them exactly when the clock is at least 10000 |
| Replay.SuffixValue | components/ReplayEngine.tsx:12 | the last k digits of a decimal denote its value mod 10^k, with the leading part weighted by 10^k |
| Replay.DecimalWidth | components/ReplayEngine.tsx:12 | a decimal has more than k digits exactly when the number is at least 10^k |
| Replay.NewEvent | components/ReplayEngine.tsx:10-17 | a marked clip has the chosen type, the program source `cam-1`, a 10 s duration, the given timestamp and the clock-derived id |
| Replay.Marked | components/ReplayEngine.tsx:18 | the new clip comes first, then the older ones in order, keeping at most 6 |
| Replay.MarkedPreservesQueue | components/ReplayEngine.tsx:10-18 | marking keeps the queue within 6 clips, all 10 s clips from `cam-1` |
| Replay.ReplayEngine.constructor | components/ReplayEngine.tsx:6-8 | an empty queue, no active clip, speed 1.0 |
| Replay.ReplayEngine.MarkEvent | components/ReplayEngine.tsx:10-19 | the queue becomes `Marked` of the old queue; the active clip and the speed are kept |
| Replay.ReplayEngine.MarkManual | components/ReplayEngine.tsx:30 | MARK EVENT queues a `MANUAL` clip at the front |
| Replay.ReplayEngine.SelectEvent | components/ReplayEngine.tsx:42 | clicking a queued clip makes it the active one and changes nothing else |
| Replay.ReplayEngine.ReturnToLive | components/ReplayEngine.tsx:75 | RETURN TO LIVE clears the active clip and changes nothing else |
| Replay.ReplayEngine.SetHalfSpeed | components/ReplayEngine.tsx:70 | the speed becomes 0.5 and nothing else changes |
| Replay.ReplayEngine.SetNormalSpeed | components/ReplayEngine.tsx:71 | the speed becomes 1.0 and nothing else changes |
| Boot.DisplayTextFromIdentifier | splash/BootState.kt:7-12 | each phase's display text is its constant name with every underscore read as a space |
| Boot.Ordinal | splash/BootState.kt:7-12 | each phase sits at its declaration position in the phase list |
| Boot.PhasesListEachOnce | splash/BootState.kt:7-12 | every phase occurs in the phase list exactly once |
| Splash.PlanCoversUnitInterval | splash/SplashViewModel.kt:29-38 | the four phases run in declaration order; their progress ranges are well formed, stay within 0..1, start at 0, end at 1 and join without gaps |
| Splash.Clamp | splash/SplashViewModel.kt:66 | `coerceIn` returns the value when it is in range, and the nearer bound otherwise |
| Splash.Progress | splash/SplashViewModel.kt:64-66 | the interpolated progress of a phase always lies within that phase's range |
| Splash.ProgressMonotone | splash/SplashViewModel.kt:64-66 | more elapsed time never gives less progress |
| Splash.ProgressBeforeStart | splash/SplashViewModel.kt:64-66 | at elapsed time 0 the progress is the phase's start |
| Splash.ProgressAfterDuration | splash/SplashViewModel.kt:64-66 | from the full duration on, the progress is the phase's end |
| Splash.ProgressMidpoint | splash/SplashViewModel.kt:64-66 | at half the duration, the progress is halfway through the range |
| Splash.Samples | splash/SplashViewModel.kt:63-68 | each loop iteration emits `Initializing` with the progress for the clock reading it took |
| Splash.PhaseEmissionsShape | splash/SplashViewModel.kt:60-70 | a phase emits its start progress, then one state per iteration, then its end progress, all with that phase |
| Splash.PhaseStepsForward | splash/SplashViewModel.kt:60-70 | with a clock that never goes back, a phase's progress never decreases |
| Splash.ErrorState | splash/SplashViewModel.kt:44-45 | a caught exception becomes `Error` with its message, or "Unknown boot error" without one |
| Splash.AttemptFromUnfold | splash/SplashViewModel.kt:27-46 | from phase k, an exception ends the attempt with the error, and otherwise phase k runs and the attempt continues at k+1 |
| Splash.CompletedStep | splash/SplashViewModel.kt:29-38 | the completed phases grow by one phase's emissions at a time |
| Splash.AttemptFromSplit | splash/SplashViewModel.kt:27-46 | any prefix of finished phases, followed by the rest of the attempt, is the whole attempt |
| Splash.AttemptRunsPhasesInOrder | splash/SplashViewModel.kt:25-48 | an attempt emits the phases that completed, in order, then `Ready`, or `Error` when a phase throws |
| Splash.AttemptStartsAtZero | splash/SplashViewModel.kt:29 | an attempt starts at progress 0 in CORE_BOOT unless it fails at once |
| Splash.AttemptFromStepsForward | splash/SplashViewModel.kt:27-46 | with monotone clocks, the rest of an attempt never steps progress back within the initialising states |
| Splash.BootStepsForward | splash/SplashViewModel.kt:12-48 | starting from the initial state, progress never decreases during an attempt |
| Splash.AttemptNormalised | splash/BootState.kt:21-24 | every emitted progress lies within 0..1 |
| Splash.CompletedNormalised | splash/BootState.kt:21-24 | every progress emitted by the completed phases lies within 0..1 |
| Splash.SplashViewModel.constructor | splash/SplashViewModel.kt:12-19 | the state starts at `Initializing(0, CORE_BOOT)`, and the `init` block runs a full attempt |
| Splash.SplashViewModel.RunPhase | splash/SplashViewModel.kt:60-70 | the loop emits exactly the phase's emissions and ends at the phase's end progress |
| Splash.SplashViewModel.Fail | splash/SplashViewModel.kt:44-45 | the catch block emits the error state |
| Splash.SplashViewModel.PhaseOrCatch | splash/SplashViewModel.kt:27-46 | a phase either throws, and the attempt ends with its error, or runs and hands over to the next |
| Splash.SplashViewModel.Finish | splash/SplashViewModel.kt:42-45 | after the last phase, the attempt ends with `Ready`, or with the catch block's error when the fault comes last |
| Splash.SplashViewModel.StartBootProcess | splash/SplashViewModel.kt:25-48 | the emitted states are exactly one attempt, ending in its outcome |
| Splash.SplashViewModel.Retry | splash/SplashViewModel.kt:53-55 | retry runs a fresh attempt from whatever state it is called in |
| Switcher.SourceAt | components/Dashboard.tsx:24-33 | source i has id `cam-(i+1)`, 60 fps, latency 18+4i ms, its status, and no stats, health or PTZ |
| Switcher.Sources | components/Dashboard.tsx:24-33 | the table has nine sources, the i-th built by `SourceAt` |
| Switcher.CameraIdSpelled | components/Dashboard.tsx:25 | the id of source i is `cam-` followed by the single digit i+1 |
| Switcher.SourcesTable | components/Dashboard.tsx:24-33 | the ids are distinct and run `cam-1` to `cam-9`; only `cam-9` is disconnected and only `cam-8` is connecting |
| Switcher.FindSource | components/Dashboard.tsx:24-33 | the lookup returns a listed source with that id, or none when no source has it |
| Switcher.FindSourceAt | components/Dashboard.tsx:24-33 | with distinct ids, looking up a source's id finds that source |
| Switcher.TakeTickSteps | components/Dashboard.tsx:39-48 | a tick moves the bar by 4, or at 100 commits the captured camera to program and resets the bar; preview, transition and frame counter are kept |
| Switcher.TicksBeforeEnd | components/Dashboard.tsx:35-48 | k < 25 ticks into a take, it is still running with the bar at 4k |
| Switcher.TicksSplit | components/Dashboard.tsx:39-48 | ticks compose one at a time and keep the switcher consistent |
| Switcher.TakeCommitsOnTick25 | components/Dashboard.tsx:35-48 | after 24 ticks the bar reads 96; the 25th commits the preview to program and restores everything else |
| Switcher.TakeWhileTransitioning | components/Dashboard.tsx:36 | TAKE during a transition is ignored |
| Switcher.Dashboard.constructor | components/Dashboard.tsx:6-14 | program `cam-1`, preview `cam-2`, FADE, no transition, bar at 0, no dropped frames |
| Switcher.Dashboard.HandleTake | components/Dashboard.tsx:35-49 | the new state is `Take` of the old state |
| Switcher.Dashboard.TakeIntervalFires | components/Dashboard.tsx:39-48 | the new state is `TakeTick` of the old state |
| Switcher.Dashboard.RunTakeToEnd | components/Dashboard.tsx:39-48 | letting the interval fire until it clears puts the captured camera on program and rests the bar at 0 |
| Switcher.Dashboard.SelectPreview | components/Dashboard.tsx:186 | a click sets the preview and nothing else |
| Switcher.Dashboard.DoubleClickSource | components/Dashboard.tsx:187 | a double click sets the preview and then takes it |
| Switcher.Dashboard.SelectTransition | components/Dashboard.tsx:135 | the transition type becomes the chosen one and nothing else changes |
| Switcher.Dashboard.TelemetryTick | components/Dashboard.tsx:16-22 | the dropped-frame counter grows by one on a drop and is otherwise kept |
| Checklist.Toggle | components/MatchProtocol.tsx:83-88 | a toggled checklist item is checked afterwards exactly when it was not before, and every other task keeps its state |
| Checklist.ToggleTwice | components/MatchProtocol.tsx:83-88 | toggling a task twice restores the checked set |
| Checklist.ToggleCount | components/MatchProtocol.tsx:83-88 | checking adds one to the count and unchecking removes one |
| Checklist.UpdateStatus | components/MatchProtocol.tsx:90-92 | phases with the id get the new status and all others are unchanged |
| Checklist.UpdateStatusKeepsTasks | components/MatchProtocol.tsx:90-92 | a status change never changes any task list |
| Checklist.TotalTasksOfLists | components/MatchProtocol.tsx:107 | the item total depends only on the phases' item lists |
| Checklist.AllTasksWithinTotal | components/MatchProtocol.tsx:107 | the set of distinct tasks is no larger than the total |
| Checklist.InitialPhasesShape | components/MatchProtocol.tsx:13-79 | five phases with ids 1 to 5, the first active and the rest pending, holding 7+5+5+4+4 = 25 tasks |
| Checklist.ProgressPercent | components/MatchProtocol.tsx:107 | the bar's width lies within 0..100 % when no more tasks are checked than listed, and is 100 % exactly when the checked count equals the total |
| Checklist.InitialTasksDistinct | components/MatchProtocol.tsx:13-79 | the 25 task texts on the page are all different: 25 distinct tasks |
| Checklist.FullExactlyWhenAllChecked | components/MatchProtocol.tsx:107 | on the page's checklist, the bar is full exactly when every task shown is checked |
| Checklist.RoundedPercent | components/MatchProtocol.tsx:110 | the label is the percentage rounded half up, as `Math.round` does |
| Checklist.RoundedPercentOfTwentyFive | components/MatchProtocol.tsx:110 | with 25 tasks, the label is exactly 4 × the number checked, within 0..100 |
| Checklist.CheckedWithinTotal | components/MatchProtocol.tsx:107 | tasks checked from the lists never outnumber the total |
| Checklist.SameListsSameTasks | components/MatchProtocol.tsx:90-92 | phases with the same task lists have the same tasks |
| Checklist.MatchProtocol.constructor | components/MatchProtocol.tsx:13-81 | the initial phases and no checked tasks |
| Checklist.MatchProtocol.ToggleTask | components/MatchProtocol.tsx:83-88 | the checked set becomes `Toggle` of the old set, and the phases are kept |
| Checklist.MatchProtocol.UpdatePhaseStatus | components/MatchProtocol.tsx:90-92 | the phases become `UpdateStatus` of the old phases, and the checked set is kept |
| Checklist.MatchProtocol.ProgressLabel | components/MatchProtocol.tsx:110 | the header shows the rounded percentage, 4 × the number checked, and reads 100 % exactly when every task shown is checked |
| Mixer.Merge | components/AudioMixer.tsx:31 | every field the patch carries overrides, and every other field is kept |
| Mixer.UpdateChannel | components/AudioMixer.tsx:30-32 | channels with the id get the patch merged in, and the rest are unchanged |
| Mixer.UpdateTouchesOne | components/AudioMixer.tsx:30-32 | with distinct ids, an update changes that one channel only |
| Mixer.UpdateKeepsIds | components/AudioMixer.tsx:30-32 | updates keep every id, so distinct ids stay distinct |
| Mixer.MuteFlips | components/AudioMixer.tsx:98 | mute flips only the mute flag, and pressing it twice restores the channel |
| Mixer.AfvLockExclusive | components/AudioMixer.tsx:108-116 | AFV flips follow-video and releases the lock; LOCK flips the lock and releases follow-video; afterwards never both |
| Mixer.DelayStepsInverse | components/AudioMixer.tsx:129-131 | `-` gives max(0, delay-10), so the delay is never negative; `+` adds 10; `-` undoes `+`, and `+` undoes `-` from 10 ms on |
| Mixer.MeterStep | components/AudioMixer.tsx:22 | a muted channel reads -60 dB; otherwise the peak moves by the noise, and reads exactly -60 dB when that would fall below -60 dB; only the peak changes |
| Mixer.MeterTick | components/AudioMixer.tsx:20-23 | every channel takes one meter step with its own noise |
| Mixer.MeterMovesLittle | components/AudioMixer.tsx:22 | an unmuted peak moves by less than 2 dB per tick |
| Mixer.ColourBands | components/AudioMixer.tsx:69-70 | red above -6 dB, yellow in (-18, -6], green at -18 dB and below |
| Mixer.InitialMixerValid | components/AudioMixer.tsx:6-13 | the six initial channels have distinct ids, levels in 0..1, non-negative delays, peaks at or above -60 dB, and are never both AFV and locked |
| Mixer.AudioMixer.constructor | components/AudioMixer.tsx:6-15 | the initial channels, and no ducking |
| Mixer.AudioMixer.ApplyPatch | components/AudioMixer.tsx:30-32 | updating a listed channel changes only that channel |
| Mixer.AudioMixer.SetLevel | components/AudioMixer.tsx:87 | the fader sets that channel's level, within 0..1 |
| Mixer.AudioMixer.ToggleMute | components/AudioMixer.tsx:98 | that channel's mute flag flips |
| Mixer.AudioMixer.ToggleAfv | components/AudioMixer.tsx:108 | that channel takes the AFV patch |
| Mixer.AudioMixer.ToggleLock | components/AudioMixer.tsx:116 | that channel takes the LOCK patch |
| Mixer.AudioMixer.DelayDown | components/AudioMixer.tsx:129 | that channel takes the `-` delay patch |
| Mixer.AudioMixer.DelayUp | components/AudioMixer.tsx:131 | that channel takes the `+` delay patch |
| Mixer.AudioMixer.MeterIntervalFires | components/AudioMixer.tsx:18-28 | the channels take one meter tick; ducking is on exactly when the commentary peak before the tick was above -10 dB |
| Connectivity.Slide | components/ConnectivityHub.tsx:42 | the window keeps its length, drops its oldest sample and appends the previous newest plus the noise |
| Connectivity.SlideAllIsSuffix | components/ConnectivityHub.tsx:42 | sliding sample by sample keeps the last window-length samples of the whole stream |
| Connectivity.SlideIsStreamStep | components/ConnectivityHub.tsx:42 | one tick's slide is one step of that stream window |
| Connectivity.TickSource | components/ConnectivityHub.tsx:40-47 | a source that is not connected, or has no stats, is unchanged; otherwise its bitrate drifts and its jitter window slides |
| Connectivity.Tick | components/ConnectivityHub.tsx:38-51 | every source takes one tick with its own draws |
| Connectivity.TickKeepsShape | components/ConnectivityHub.tsx:40-47 | a tick keeps ids, statuses, sync delays and window lengths, and moves a live source's newest sample by less than 2 |
| Connectivity.SliderPosition | components/ConnectivityHub.tsx:129 | a source with stats shows its sync delay on the slider, and one without stats shows 0 |
| Connectivity.UpdateSourceDelay | components/ConnectivityHub.tsx:53-55 | only sources with that id and with stats get the new sync delay; everything else is unchanged |
| Connectivity.DelayTouchesOne | components/ConnectivityHub.tsx:53-55 | with distinct ids, moving one slider sets that source's delay and leaves the others; a source without stats ignores it |
| Connectivity.SparkMax | components/ConnectivityHub.tsx:18 | the sparkline's scale is at least 1, at least every sample, and is either 1 or one of the samples |
| Connectivity.InitialHubValid | components/ConnectivityHub.tsx:30-35 | the four initial sources have distinct ids and non-empty jitter windows |
| Connectivity.ConnectivityHub.constructor | components/ConnectivityHub.tsx:30-35 | the initial four sources |
| Connectivity.ConnectivityHub.TelemetryTick | components/ConnectivityHub.tsx:38-51 | the sources become `Tick` of the old sources, and the windows stay non-empty |
| Connectivity.ConnectivityHub.SetSyncDelay | components/ConnectivityHub.tsx:127-130 | a slider value from 0..500 in steps of 10 becomes that source's sync delay |
| Health.ClassifyBands | components/HealthMonitor.tsx:13-19 | temperature: red above 45, yellow in (40, 45], else green; signal: red below 50, yellow in [50, 75), else green; battery: red below 20, yellow in [20, 50), else green |
| Health.ClassifyMonotone | components/HealthMonitor.tsx:13-19 | a hotter source, or a weaker signal or battery, is never shown as healthier |
| Health.Suffix | components/HealthMonitor.tsx:20 | temperature is printed in °C and the other metrics in % |
| Health.Reading | components/HealthMonitor.tsx:52-58 | a missing health record reads as 0; otherwise the reading is that metric's field |
| Health.MissingHealthLevels | components/HealthMonitor.tsx:52-58 | a source without health data shows red signal, red battery and green temperature |
| Flow.StageIdsShape | components/SystemFlow.tsx:8-19 | ten stages with distinct ids |
| Flow.Advance | components/SystemFlow.tsx:24 | a tick moves to the next stage, and from the last back to the first |
| Flow.AdvancedIsModular | components/SystemFlow.tsx:21-27 | n ticks move from stage s to stage (s + n) mod 10 |
| Flow.TenTicksCycle | components/SystemFlow.tsx:21-27 | ten ticks return to the starting stage |
| Flow.Look | components/SystemFlow.tsx:52-53 | a stage is lit exactly when it is the current one, processed exactly when it comes before it, and pending otherwise |
| Flow.OneActiveStage | components/SystemFlow.tsx:51-53 | exactly one stage is lit, and exactly as many stages are processed as the current index |
| Flow.SystemFlow.constructor | components/SystemFlow.tsx:5-6 | the walkthrough starts at stage 0 and running |
| Flow.SystemFlow.IntervalFires | components/SystemFlow.tsx:21-27 | while running, the stage advances; while halted, nothing changes |
| Flow.SystemFlow.ToggleSimulation | components/SystemFlow.tsx:37 | the running flag flips and the stage is kept |

## Left out

- Numbers are unbounded integers and exact reals. The model does not
  capture IEEE float rounding: not the Kotlin `Float` progress, the JS
  `number` percentages, nor the `toFixed(1)` rounding of bitrates.
- The bitrate drift of `components/Dashboard.tsx:18` is not modelled.
  Neither are the random bitrates of sources 2-9 (`components/Dashboard.tsx:30`);
  all bitrates are parameters.
- Random draws are parameters: meter noise, jitter and bitrate noise, and
  dropped frames. Their ranges are stated as preconditions where the
  source fixes them.
- `Date.now()`, `toLocaleTimeString` and `System.currentTimeMillis()` are
  parameters. Replay and event ids are not claimed unique, because the
  source does not make them so.
- Timers, coroutines and `delay(16)` are modelled as explicit method calls.
  The order of those calls is the only timing captured.
- Splash.SplashViewModel.Retry: the model runs the new attempt from the
  current state. It does not capture an earlier coroutine still running
  beside it, because the source does not cancel it.
- Splash.AttemptRunsPhasesInOrder: an exception is modelled only between
  phases, never in the middle of one. In the source, `delay(16)` inside
  `runPhase` (`splash/SplashViewModel.kt:67`) throws a cancellation
  exception when the view model's scope is cancelled. The catch block
  (`splash/SplashViewModel.kt:44-45`) then emits `Error` part-way through a
  phase, after some of its progress states. The model does not capture
  that interleaving.
- Splash.SplashViewModel.RunPhase: it requires a clock that eventually
  passes the phase's end time. A clock that never advances is not
  modelled, because the source would loop forever.
- Checklist.MatchProtocol.ToggleTask: it requires the toggled item to be one of
  the listed tasks, because the checkboxes only pass those.
- Connectivity.TickSource: it requires a non-empty jitter window. In the
  source, an empty window would produce `NaN`; every initial window is
  non-empty and a tick keeps its length.
- Replay.ReplayEngine.SetHalfSpeed and Replay.ReplayEngine.SetNormalSpeed:
  the buttons are only rendered while a clip is active. The model does not
  require that.
- The dB conversion `20·log10(level)` of `components/AudioMixer.tsx:91` is
  not modelled, because it is display only and floating point.
- The dimming of a health card whose source is not connected
  (`components/HealthMonitor.tsx:45`) is not modelled, because it is
  styling only.
- The meter height is not modelled, and neither is the sparkline point
  geometry (`components/ConnectivityHub.tsx:19`).
- The static figures of `StatCard` (`components/ConnectivityHub.tsx:6-14`)
  are not modelled; they are constant text.
- `AppState`, `PiPConfig`, `ChromaConfig` and `ViewModelSpec`
  (`types.ts:75-113`) are not modelled, because nothing in the modelled
  code uses them.
- `period`, `fouls` and `isGameOver` are kept as fields. The source never
  changes them, so no rules about them are modelled.
- `components/SocialHub.tsx` is not part of this model. It calls an
  external AI service and parses its reply.
- `splash/SplashScreen.kt` is not part of this model. It is animation and
  navigation.
- `components/DirectorView.tsx`, `components/PTZControls.tsx`,
  `components/Sidebar.tsx` and `App.tsx` are not part of this model. They
  are layout plus single-assignment setters.
- The static pages are not part of this model: ArchitectureView,
  TechnicalBlueprint, ImplementationGuide, MultimediaPipeline and
  AdvancedMultimediaSpecs.
