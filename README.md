# KefuTimer window core, modelled in Dafny

KefuTimer is a WPF countdown timer. Its whole behaviour lives in the code-behind of
its main window (`MainWindow.xaml.cs`), which this project models:

- the timer state machine driven by the one-second `DispatcherTimer`: countdown, time's
  up, the optional overtime count-up and its cap, start/pause, reset, set time and presets;
- the bookkeeping of the two media players: background music (BGM) and the time-up
  chime. This covers which track is open, whether the BGM plays, muting, looping at the
  end of a track, and the selection of a new track from either list;
- the timer text written by `UpdateTimerDisplay` (`mm:ss`, with `+` in overtime);
- the minutes/seconds text boxes and their four stepper buttons, with carry and borrow between
  seconds and minutes and C#'s unchecked 32-bit `int` addition;
- `LoadAudioFiles`: the top-level files of a directory, kept when they end in `.mp3`, `.wav`
  or `.ogg` (any case), in ascending order.

Layout:

| file | module | what it is |
|---|---|---|
| `wrappers.dfy` | `Wrappers` | `Option` |
| `track_library.dfy` | `TrackLibrary` | the audio-file filter and sort, with the ordinal order and its lemmas |
| `timer_display.dfy` | `TimerDisplay` | the timer text, and a reader that proves what it shows |
| `time_inputs.dfy` | `TimeInputs` | the two boxes as parsed 32-bit ints, and the stepper buttons |
| `engine.dfy` | `Engine` | every event handler as a function from state to (new state, player calls, redraw), with its properties |
| `timer_runs.dfy` | `TimerRuns` | runs of many ticks: countdown, time's up, overtime to its cap |
| `main_window.dfy` | `Window` | class `MainWindow`: the window's fields, updated in place by its handlers, each proved against `Engine` |

Each handler is written twice. `Engine` states it as a function on a value `State`, and
lemmas prove its properties there. `Window.MainWindow` runs the same statements on fields,
in the order of the source, and its `ensures` say that the fields end up as the `Engine`
function says. The window also keeps a call log: every method call and property write it
makes on `_mediaPlayer` (`Open`, `Play`, `Pause`, `Stop`, `Position`, `IsMuted`), on
`_timeUpMediaPlayer` (`Open`) and on `SystemSounds`, in order, except that the chime
player's `Stop`, `Position = 0` and `Play` in `PlayTimeUpSound` (lines 226-228) are logged
as the single entry `ChimeRestart`. `Engine.Step.out` is what a handler
adds to that log. The lemmas `InitialFollowsCalls`, `TickFollowsCalls`,
`DurationHandlersFollowCalls` and `ChannelHandlersFollowCalls` prove that the player state
the constructor or a handler leaves is exactly what replaying those calls does to the
players. The calls on line 94 and 104 are preceded by the ones the combo boxes'
`SelectionChanged` handlers make when lines 93 and 103 set `SelectedIndex` to 0, so each
first track is opened twice. `MainWindow.xaml`, which attaches the handlers and sets the controls'
initial properties, is not part of this model. The model assumes of it:
- both `SelectionChanged` handlers are attached to their combo boxes, as their names say;
- the timer text starts in the default colour `ControlText` (`Engine.Initial`), the colour
  lines 279 and 332 restore;
- no mute check box event fires before line 39 creates `_mediaPlayer`, so the
  `_mediaPlayer != null` tests on lines 383 and 391 always pass and are not modelled.

Modelling choices:

- `TimeSpan` values are whole seconds (`nat`). No handler ever makes a fraction of a second,
  and no handler makes a negative value for the inputs modelled here.
- The overtime guard on line 197 is written with reals, as `TotalMinutes` is a `double`
  (`Engine.MayCountOn`). It is proved equivalent to `total <= 5940`. One tick at 99:00
  still counts up, so the overtime counter stops at 99:01 (5941 s), not at 99:59, and
  `Engine.OvertimeCap` is 5941. Because `mm` is the minutes component of the `TimeSpan`,
  99:01 is displayed as `+39:01` (`TimerRuns.OvertimeStopsAtCap`).
- `StartPauseButton_Click` refuses to start when the initial time, not the remaining time,
  is zero and the timer is not in overtime (line 260). After a time's-up without overtime
  (00:00 left, initial time not zero), Start is accepted, and the next tick is time's up
  again.
- `BGMComboBox_SelectionChanged` plays the newly opened track whenever the timer runs, in
  overtime too (line 133), unlike Start, which does not play the BGM in overtime (line 265).
- `MediaPlayer` is modelled by the state of the calls made on it. `Open` loads a track
  without playing it, `Play` plays if a track is open, and `Pause` and `Stop` halt it.
  `Engine.Bgm` records the open track, whether it plays and whether it is muted; the
  chime player records only its open track. `MediaEnded` is an event the environment
  delivers; the model does not say when.
- A text box is modelled by the result of `int.TryParse` on its text (`Option<Int32>`).
  A value a handler writes with `ToString("D2")` parses back to itself, so writing a box is
  writing its value.
- A directory is given as `Option<seq<string>>`: `None` when it does not exist, otherwise
  its top-level file paths. The OrderBy order is modelled as an ordinal order on the full
  path, character by character on Unicode scalar values, and the extension test as ASCII
  case-insensitive (see "## Left out" for where these differ from .NET).

## Model

| member | source | states |
|---|---|---|
| `TrackLibrary.LoadAudioFiles` | MainWindow.xaml.cs:113-125 | a missing directory gives the empty list; the result is always sorted |
| `TrackLibrary.LoadAudioFilesContents` | MainWindow.xaml.cs:115-122 | the list holds each audio file of the directory exactly as often as the directory does, and no other path; a path is listed iff the directory exists, holds it and it is an audio file |
| `TrackLibrary.LoadAudioFilesUnique` | MainWindow.xaml.cs:117-122 | any sorted list with exactly the directory's audio files and their multiplicities IS the list returned: filter-then-sort is fully determined |
| `TrackLibrary.LoadAudioFilesExample` | MainWindow.xaml.cs:117-122 | a directory with `b.wav`, `a.mp3`, `c.txt` lists `a.mp3` then `b.wav` |
| `TrackLibrary.IsAudioFile` | MainWindow.xaml.cs:118-120 | a kept path ends in a four-character extension starting with `.` |
| `TrackLibrary.AudioExtensionsAnyCase` | MainWindow.xaml.cs:118-120 | `.mp3`, `.MP3`, `.Wav`, `.oGG` after any name are all kept: the test ignores case |
| `TrackLibrary.FilterAudio` | MainWindow.xaml.cs:118-120 | the Where keeps only audio files and never lengthens the list |
| `TrackLibrary.FilterAudioCount` | MainWindow.xaml.cs:118-120 | each audio path is kept as often as it occurs, every other path is dropped |
| `TrackLibrary.SortPaths` | MainWindow.xaml.cs:121 | the OrderBy returns a sorted permutation of its input |
| `TrackLibrary.Insert` | MainWindow.xaml.cs:121 | inserting into a sorted list keeps it sorted and adds exactly that path |
| `TrackLibrary.SortedUnique` | MainWindow.xaml.cs:121 | two sorted lists with the same elements are equal |
| `TrackLibrary.NoLaterTotal` | MainWindow.xaml.cs:121 | any two paths are comparable in the order |
| `TrackLibrary.NoLaterAntisymmetric` | MainWindow.xaml.cs:121 | paths that each come no later than the other are equal |
| `TrackLibrary.NoLaterTransitive` | MainWindow.xaml.cs:121 | the order is transitive |
| `TimerDisplay.Format` | MainWindow.xaml.cs:237-247 | the text is `mm:ss`, six characters with a leading `+` exactly in overtime, five otherwise, `:` before the seconds |
| `TimerDisplay.FormatRoundTrip` | MainWindow.xaml.cs:237-247 | reading the text back gives the overtime flag and the seconds within the hour |
| `TimerDisplay.FormatDropsHours` | MainWindow.xaml.cs:241 | `mm` drops whole hours: a value and that value modulo 3600 show the same text |
| `TimerDisplay.FormatInjective` | MainWindow.xaml.cs:237-247 | within an hour, different values show different texts |
| `TimerDisplay.FormatDefault` | MainWindow.xaml.cs:32-34 | the five-minute default shows `05:00` |
| `TimeInputs.InRange` | MainWindow.xaml.cs:295 | both boxes parse, minutes at least 0, seconds from 0 to 59 |
| `TimeInputs.Duration` | MainWindow.xaml.cs:297 | the `TimeSpan(0, minutes, seconds)` of boxes in range, in seconds: its whole minutes are the minutes box and its remainder the seconds box |
| `TimeInputs.DurationOnto` | MainWindow.xaml.cs:295-297 | every duration whose minutes fit an `int` is set by exactly one pair of boxes in range |
| `TimeInputs.Wrap` | MainWindow.xaml.cs:341 | unchecked `int` addition: the result is congruent modulo 2^32 and equals the sum when it fits |
| `TimeInputs.UpdateMinutes` | MainWindow.xaml.cs:337-345 | an unparsable box is left alone; otherwise the minutes move by the change, clamped at 0, seconds untouched |
| `TimeInputs.UpdateSeconds` | MainWindow.xaml.cs:347-364 | an unparsable box is left alone; otherwise the seconds move by the change; at 60 or more one minute is carried and seconds become 0, below 0 one minute is borrowed and seconds become 59; seconds always end in 0..59 |
| `TimeInputs.SecondsUpAddsOne` | MainWindow.xaml.cs:347-364 | on boxes in range, seconds "+" adds one second to the duration SetTime would accept |
| `TimeInputs.SecondsDownSubtractsOne` | MainWindow.xaml.cs:347-364 | above 00:00, seconds "-" takes one second off that duration |
| `TimeInputs.SecondsDownAtZero` | MainWindow.xaml.cs:347-364 | at 00:00 seconds "-" gives 00:59 |
| `TimeInputs.SecondsUpThenDown` | MainWindow.xaml.cs:347-364 | seconds "+" then "-" restores the boxes |
| `TimeInputs.StepsStayInRange` | MainWindow.xaml.cs:337-364 | no stepper button takes boxes in range out of the range SetTime accepts, even at the 32-bit edge |
| `Engine.Initial` | MainWindow.xaml.cs:29-47 | the window starts consistent, idle, at five minutes, with exactly the first track of each list open (none for an empty list) |
| `Engine.InitialLog` | MainWindow.xaml.cs:91-105 | the constructor only opens tracks, and only the first of each list: two Opens per list that is not empty (the SelectionChanged handler's and its own), the BGM's before the chime's, nothing else |
| `Engine.InitialFollowsCalls` | MainWindow.xaml.cs:83-106 | replaying the constructor's calls on two idle players gives exactly the players of the initial state |
| `Engine.FirstTrackIsLeast` | MainWindow.xaml.cs:89-104 | the track opened first on a loaded list comes no later in the order than any listed track |
| `Engine.StopTimer` | MainWindow.xaml.cs:210-220 | the timer and the BGM stop; nothing else changes |
| `Engine.TimeUpSound` | MainWindow.xaml.cs:222-234 | the time-up sound is a chime: the chime player restarts iff it has a source, else the system exclamation |
| `Engine.MayCountOn` | MainWindow.xaml.cs:197 | the real-valued `TotalMinutes` guard holds exactly up to 5940 seconds |
| `Engine.Tick` | MainWindow.xaml.cs:163-208 | countdown: one second less and no call; at zero: the time-up sound then BGM stop; without overtime the timer stops at 00:00 with no redraw; with overtime it turns red and reads 1 in the same tick; in overtime: +1 up to 5940, beyond it the timer stops; overtime never chimes, never ends, and keeps tracks |
| `Engine.TickText` | MainWindow.xaml.cs:163-247 | after every tick, the text shown is the one the new state formats to, also on the tick that returns before redrawing |
| `Engine.StartPause` | MainWindow.xaml.cs:249-273 | pause stops the timer and pauses the BGM; start is refused, with no call, exactly when the initial time is zero outside overtime; an accepted start runs the timer and plays the BGM iff a track is open and not in overtime |
| `Engine.ResetToInitial` | MainWindow.xaml.cs:328-335 | stopped, not in overtime, default colour, remaining time back to the initial time, one BGM Stop, tracks kept |
| `Engine.ResetIdempotent` | MainWindow.xaml.cs:275-282 | reset twice is reset once, and its result depends only on the initial time and the tracks |
| `Engine.SetTimeOutcome` | MainWindow.xaml.cs:284-309 | running: refused; idle with a box that does not parse: exactly then the not-numeric box; idle, parsed but out of range: exactly then the range box; accepted iff idle and minutes >= 0 and 0 <= seconds < 60 |
| `Engine.SetTime` | MainWindow.xaml.cs:284-309 | a refused change leaves everything as it was; an accepted one sets the initial time to 60·minutes + seconds and resets to it |
| `Engine.PresetOutcome` | MainWindow.xaml.cs:311-326 | running: refused; accepted iff idle and the tag parses; an idle preset whose tag does not parse is ignored, with no message box |
| `Engine.Preset` | MainWindow.xaml.cs:311-326 | a refused or unparsable preset changes nothing; an accepted one sets the initial time to 60·tag and resets to it |
| `Engine.SelectBgm` | MainWindow.xaml.cs:127-138 | an index in range opens that track and plays it iff the timer runs; other indices do nothing |
| `Engine.SelectChime` | MainWindow.xaml.cs:140-147 | an index in range opens that chime; other indices do nothing |
| `Engine.SetMuted` | MainWindow.xaml.cs:381-395 | only the mute flag changes, by exactly one write of `IsMuted` |
| `Engine.MediaEnded` | MainWindow.xaml.cs:157-161 | the BGM rewinds and plays again (it plays iff a track is open); nothing else changes |
| `Engine.TickKeepsValid` | MainWindow.xaml.cs:163-208 | a tick keeps the state consistent, so overtime never passes 99:01 |
| `Engine.StartPauseKeepsValid` | MainWindow.xaml.cs:249-273 | start/pause keeps the state consistent |
| `Engine.DurationChangesKeepValid` | MainWindow.xaml.cs:275-335 | reset, set time and presets keep the state consistent |
| `Engine.ChannelChangesKeepValid` | MainWindow.xaml.cs:127-161 | track selection, mute and media-ended keep the state consistent |
| `Engine.TickFollowsCalls` | MainWindow.xaml.cs:163-234 | a tick changes the players exactly as its calls do, replayed in order |
| `Engine.DurationHandlersFollowCalls` | MainWindow.xaml.cs:249-335 | so do start/pause, reset, set time and presets |
| `Engine.ChannelHandlersFollowCalls` | MainWindow.xaml.cs:127-161 | so do track selection, media-ended and mute |
| `TimerRuns.RunTicks` | MainWindow.xaml.cs:163-208 | n ticks of the DispatcherTimer (none once it has stopped) never change the duration, the open tracks or the mute flag, and make at most two calls each |
| `TimerRuns.RunTicksSplit` | MainWindow.xaml.cs:163-208 | a + b ticks are a ticks followed by b ticks |
| `TimerRuns.RunTicksKeepsValid` | MainWindow.xaml.cs:163-208 | any number of ticks keeps the state consistent; overtime never passes 99:01 |
| `TimerRuns.CountdownReachesZero` | MainWindow.xaml.cs:166-173 | the first `remaining` ticks of a countdown each take one second off and make no call |
| `TimerRuns.AfterCountdown` | MainWindow.xaml.cs:166-173 | a run through the countdown is its silent countdown followed by a run from 00:00 |
| `TimerRuns.OvertimeCountsUp` | MainWindow.xaml.cs:195-200 | overtime counts up one second per tick without a call, up to 99:01 |
| `TimerRuns.OvertimeStopsAtCap` | MainWindow.xaml.cs:195-204 | a long enough overtime ends stopped at 99:01, shown as `+39:01`, with one BGM Stop |
| `TimerRuns.NoChimeInOvertime` | MainWindow.xaml.cs:178-192 | once in overtime, no tick chimes and overtime is never left |
| `TimerRuns.IntoOvertime` | MainWindow.xaml.cs:175-205 | from 00:00 with the overtime box checked: the time-up sound, BGM Stop, then no chime at all |
| `TimerRuns.ChimesOnceIntoOvertime` | MainWindow.xaml.cs:163-208 | a countdown run past zero with overtime chimes exactly once, first, then stops the BGM, and ends in overtime |
| `TimerRuns.TimesUpWithoutOvertime` | MainWindow.xaml.cs:178-191 | without overtime a run past zero ends stopped at 00:00 after one chime and one BGM Stop, and nothing else changes |
| `TimerRuns.ResetThenStart` | MainWindow.xaml.cs:249-282 | reset then start runs the timer from the full duration |
| `TimerRuns.FiveSecondRun` | MainWindow.xaml.cs:163-208 | a five-second timer reaches 00:00 silently in five ticks; the sixth enters overtime at +00:01 with the box checked, or stops at 00:00 without it |
| `Window.MainWindow.constructor` | MainWindow.xaml.cs:29-47 | the window loads both lists, opens the first track of each (logging `Engine.InitialLog`), starts consistent at five minutes showing `05:00` |
| `Window.MainWindow.UpdateTimerDisplay` | MainWindow.xaml.cs:237-247 | the text becomes the formatted remaining time; nothing else changes |
| `Window.MainWindow.StopTimer` | MainWindow.xaml.cs:210-220 | the fields become `Engine.StopTimer` of the old ones and BGM Stop is logged |
| `Window.MainWindow.PlayTimeUpSound` | MainWindow.xaml.cs:222-234 | logs the time-up sound for the open chime; no field the handlers decide on changes |
| `Window.MainWindow.Tick` | MainWindow.xaml.cs:163-208 | keeps the window consistent; its fields and log become what `Engine.Tick` says; the text is redrawn unless the tick returned early |
| `Window.MainWindow.EnterOvertime` | MainWindow.xaml.cs:183-185 | overtime on, BGM stopped, red text |
| `Window.MainWindow.CountOvertime` | MainWindow.xaml.cs:195-205 | one more overtime second while the guard holds, else StopTimer |
| `Window.MainWindow.StartPause` | MainWindow.xaml.cs:249-273 | keeps the window consistent; fields and log as `Engine.StartPause` |
| `Window.MainWindow.ResetToInitialTime` | MainWindow.xaml.cs:328-335 | fields and log as `Engine.ResetToInitial`, and the text shows the new time |
| `Window.MainWindow.Reset` | MainWindow.xaml.cs:275-282 | the same as ResetToInitialTime |
| `Window.MainWindow.SetTime` | MainWindow.xaml.cs:284-309 | returns the outcome `Engine.SetTimeOutcome` names; fields and log as `Engine.SetTime`; a refused change leaves the text |
| `Window.MainWindow.Preset` | MainWindow.xaml.cs:311-326 | outcome, fields and log as `Engine.PresetOutcome` and `Engine.Preset`; an accepted preset writes the boxes as the minutes and 0 |
| `Window.MainWindow.UpdateMinutes` | MainWindow.xaml.cs:337-345 | the boxes become `TimeInputs.UpdateMinutes` of the old ones |
| `Window.MainWindow.UpdateSeconds` | MainWindow.xaml.cs:347-364 | the boxes become `TimeInputs.UpdateSeconds` of the old ones |
| `Window.MainWindow.SelectBgm` | MainWindow.xaml.cs:127-138 | fields and log as `Engine.SelectBgm` on the window's BGM list |
| `Window.MainWindow.SelectChime` | MainWindow.xaml.cs:140-147 | fields and log as `Engine.SelectChime` on the window's chime list |
| `Window.MainWindow.SetMuted` | MainWindow.xaml.cs:381-395 | fields and log as `Engine.SetMuted`: the one `IsMuted` write |
| `Window.MainWindow.MediaEnded` | MainWindow.xaml.cs:157-161 | fields and log as `Engine.MediaEnded` |

## Left out

- Window sizing (`MainWindow_Loaded`, `MainWindow_SizeChanged`, lines 49-81): floating-point font scaling with no effect on the timer.
- The taskbar progress value and state (lines 169-172, 219, 256, 270): a display side channel computed in floating point.
- The Start/Pause button caption (lines 217, 255, 269): a label that follows `timerRunning`.
- The message-box texts and icons: the model returns which box is shown as an `Engine.Outcome`.
- `MainWindow_Closing` (lines 149-155): it stops and closes the players when the window closes, after which no handler runs.
- `AlwaysOnTopCheckBox_Checked` / `_Unchecked` (lines 371-379): only a window property.
- The four stepper click handlers (lines 366-369) are one-line calls of `UpdateMinutes` / `UpdateSeconds` with change 1 or -1 and are not separate members.
- The directory paths: `GetApplicationBaseDirectory` and `Path.Combine` (lines 85-88, 98, 108-111) are I/O. The constructor takes the two directories' contents as parameters.
- The combo-box item lists (`Path.GetFileName`, lines 90 and 100): display only.
- `int.TryParse` itself (whitespace, signs, culture): a box is modelled by its parse result.
- The DispatcherTimer's one-second interval and the clock: ticks are steps of the model, delivered only while the timer runs.
- MediaPlayer decoding, timing and failures: the model keeps only the state of the calls made on the players.
- `TrackLibrary.SortPaths`: OrderBy uses the culture-sensitive default string comparer; the model sorts by ordinal order instead, because the culture's collation tables are outside the model. The two orders differ on case (the culture puts `a.mp3` before `B.mp3`, ordinal order puts `B.mp3` first) and on punctuation and symbols such as `_` and `-`, which the culture weighs differently from their code values; with such names a different first track is opened at start-up.
- `TrackLibrary.NoLater`: characters are compared as Unicode scalar values, while .NET's ordinal comparison uses UTF-16 code units; the two differ only between a character above U+FFFF and one in U+E000..U+FFFF.
- `TrackLibrary.IsAudioFile`: the case-insensitive extension test folds ASCII letters only.
- `Engine.Preset`, `Window.MainWindow.Preset`: the button's tag is assumed non-negative. The preset buttons carry fixed minute counts in the window's XAML, which is not part of this model, and a negative `TimeSpan` duration is outside the model's `nat` times.
