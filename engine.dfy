/**
  The timer state machine and the audio bookkeeping of MainWindow, as values: every event
  handler is a function from the state before it to the state after it and the calls it
  makes on the two media players, in order. The window (module Window) runs these handlers
  on its fields; this module states and proves what they do.
*/
module Engine {
  import opened Wrappers
  import opened TimerDisplay
  import opened TimeInputs
  import TrackLibrary

  /** The duration the window starts with: five minutes. */
  const DefaultDuration: nat := 300

  /** From this overtime value on, a tick no longer counts up (99 minutes exactly). */
  const LastCountingValue: nat := 5940

  /** The largest overtime value: the tick at LastCountingValue still counts up once. */
  const OvertimeCap: nat := 5941

  /** A call made on the BGM player, the chime player or the system sounds. */
  datatype Command =
    | BgmOpen(path: string)     // _mediaPlayer.Open
    | BgmPlay                   // _mediaPlayer.Play
    | BgmPause                  // _mediaPlayer.Pause
    | BgmStop                   // _mediaPlayer.Stop
    | BgmRewind                 // _mediaPlayer.Position = 0
    | BgmMute(muted: bool)      // _mediaPlayer.IsMuted = muted
    | ChimeOpen(path: string)   // _timeUpMediaPlayer.Open
    | ChimeRestart              // _timeUpMediaPlayer.Stop, Position = 0, Play
    | SystemExclamation         // SystemSounds.Exclamation.Play

  predicate IsChime(c: Command)
  {
    c == ChimeRestart || c == SystemExclamation
  }

  /** The colour of the timer text. */
  datatype Foreground = ControlText | Red

  /** The BGM player: the opened track, whether it plays, whether it is muted. Open loads a
      track without playing it; Play plays when a track is open; Pause and Stop halt. */
  datatype Bgm = Bgm(source: Option<string>, playing: bool, muted: bool)

  datatype State = State(
    remaining: nat,           // _timeRemaining, in seconds
    initial: nat,             // _initialTime, in seconds
    running: bool,            // _timerRunning (the DispatcherTimer is started exactly then)
    overtime: bool,           // _isOvertime
    foreground: Foreground,   // TimerDisplay.Foreground
    bgm: Bgm,                 // _mediaPlayer
    chime: Option<string>)    // _timeUpMediaPlayer.Source

  /** What a handler leaves behind: the new state, the calls it made, in order, and whether it
      ends by rewriting the timer text (UpdateTimerDisplay) from the new state. */
  datatype Step = Step(next: State, out: seq<Command>, redraw: bool)

  /** How a request to change the duration ended: accepted, one of the three message boxes,
      or ignored without any box. */
  datatype Outcome = Accepted | TimerRunning | OutOfRange | NotNumeric | Ignored

  /** The consistent states: the window reaches no others. */
  predicate Valid(s: State)
  {
    && (!s.overtime ==> s.remaining <= s.initial)
    && (s.overtime ==> 1 <= s.remaining <= OvertimeCap)
    && (s.running ==> s.initial > 0 || s.overtime)
    && s.foreground == (if s.overtime then Red else ControlText)
    && (s.bgm.playing ==> s.bgm.source.Some?)
  }

  /** A channel's source is one of its listed files, and there is one whenever the list is not empty. */
  predicate Sourced(source: Option<string>, files: seq<string>)
  {
    (source.Some? <==> |files| > 0) && (source.Some? ==> source.value in files)
  }

  function First(files: seq<string>): (r: Option<string>)
    ensures Sourced(r, files)
  {
    if |files| > 0 then Some(files[0]) else None
  }

  /** The window after its constructor: five minutes, idle, the first track of each list open. */
  function Initial(bgmFiles: seq<string>, chimeFiles: seq<string>): (s: State)
    ensures Valid(s) && Sourced(s.bgm.source, bgmFiles) && Sourced(s.chime, chimeFiles)
    ensures s.bgm.source == (if |bgmFiles| > 0 then Some(bgmFiles[0]) else None)
    ensures s.chime == (if |chimeFiles| > 0 then Some(chimeFiles[0]) else None)
    ensures s.remaining == s.initial == DefaultDuration && !s.running && !s.overtime
    ensures !s.bgm.playing && !s.bgm.muted
  {
    State(DefaultDuration, DefaultDuration, false, false, ControlText,
          Bgm(First(bgmFiles), false, false), First(chimeFiles))
  }

  /** The calls the constructor makes: for a list that is not empty, setting SelectedIndex to 0
      raises the combo box's SelectionChanged handler, which opens the first track (the timer
      is not running, so it does not play), and then the constructor opens it once more. */
  function InitialLog(bgmFiles: seq<string>, chimeFiles: seq<string>): (out: seq<Command>)
    ensures forall c :: c in out ==>
      (c.BgmOpen? && |bgmFiles| > 0 && c.path == bgmFiles[0]) ||
      (c.ChimeOpen? && |chimeFiles| > 0 && c.path == chimeFiles[0])
    ensures |out| == (if |bgmFiles| > 0 then 2 else 0) + (if |chimeFiles| > 0 then 2 else 0)
    // the BGM list is bound first (lines 89-95), then the chime list (lines 97-105)
    ensures forall i :: 0 <= i < |out| ==> (out[i].BgmOpen? <==> i < (if |bgmFiles| > 0 then 2 else 0))
  {
    (if |bgmFiles| > 0 then [BgmOpen(bgmFiles[0]), BgmOpen(bgmFiles[0])] else []) +
    (if |chimeFiles| > 0 then [ChimeOpen(chimeFiles[0]), ChimeOpen(chimeFiles[0])] else [])
  }

  function Played(b: Bgm): Bgm { b.(playing := b.source.Some?) }

  function Halted(b: Bgm): Bgm { b.(playing := false) }

  function Opened(b: Bgm, path: string): Bgm { b.(source := Some(path), playing := false) }

  /** What one call does to the BGM player. */
  function BgmAfter(b: Bgm, c: Command): Bgm
  {
    match c
    case BgmOpen(path) => Opened(b, path)
    case BgmPlay => Played(b)
    case BgmPause => Halted(b)
    case BgmStop => Halted(b)
    case BgmMute(muted) => b.(muted := muted)
    case _ => b
  }

  /** What one call does to the chime player's source. */
  function ChimeAfter(chime: Option<string>, c: Command): Option<string>
  {
    if c.ChimeOpen? then Some(c.path) else chime
  }

  /** The players after a sequence of calls, in order. */
  function Replay(b: Bgm, chime: Option<string>, out: seq<Command>): (Bgm, Option<string>)
    decreases |out|
  {
    if out == [] then (b, chime)
    else Replay(BgmAfter(b, out[0]), ChimeAfter(chime, out[0]), out[1..])
  }

  /** A handler's effect on the players is exactly what its calls do to them. */
  predicate FollowsCalls(s: State, r: Step)
  {
    Replay(s.bgm, s.chime, r.out) == (r.next.bgm, r.next.chime)
  }

  /** StopTimer: the timer stops and so does the BGM (this handler's one call is BgmStop). */
  function StopTimer(s: State): (r: State)
    ensures !r.running && !r.bgm.playing
    ensures r.bgm.source == s.bgm.source && r.bgm.muted == s.bgm.muted
    ensures r.(running := s.running, bgm := s.bgm) == s
  {
    s.(running := false, bgm := Halted(s.bgm))
  }

  /** PlayTimeUpSound: the chime track from its start when one is open, else the system alert. */
  function TimeUpSound(chime: Option<string>): (c: Command)
    ensures IsChime(c)
    ensures c == ChimeRestart <==> chime.Some?
  {
    if chime.Some? then ChimeRestart else SystemExclamation
  }

  /** The overtime guard of Timer_Tick, written as the window writes it: TotalMinutes < 99, or
      TotalMinutes == 99 and the seconds component below 59. TotalMinutes is a double and
      cannot hold every seconds-over-60 quotient exactly, but the division is correctly rounded
      and 99 is representable, so the comparisons with 99 give the same answers as on the exact
      quotient used here; the guard holds up to 99:00 and no further. */
  predicate MayCountOn(total: nat): (b: bool)
    ensures b <==> total <= LastCountingValue
  {
    var totalMinutes := total as real / 60.0;
    totalMinutes < 99.0 || (totalMinutes == 99.0 && total % 60 < 59)
  }

  /** Timer_Tick. Ticks arrive only while the DispatcherTimer is started, so only while running.
      overtimeMode is the state of the overtime check box. */
  function Tick(s: State, overtimeMode: bool): (r: Step)
    requires s.running
    // a countdown second: one second less, nothing else changes, no call
    ensures !s.overtime && s.remaining > 0 ==>
      && r.out == [] && r.redraw
      && r.next.remaining == s.remaining - 1
      && r.next.(remaining := s.remaining) == s
    // the countdown is at zero: one chime, then the BGM stops
    ensures !s.overtime && s.remaining == 0 ==>
      && r.out == [TimeUpSound(s.chime), BgmStop]
      && !r.next.bgm.playing && r.next.bgm.(playing := s.bgm.playing) == s.bgm
      && r.next.initial == s.initial && r.next.chime == s.chime
    // ... and without overtime the timer stops at 00:00 and returns before redrawing the text
    ensures !s.overtime && s.remaining == 0 && !overtimeMode ==>
      && !r.next.running && !r.redraw
      && r.next.(running := s.running, bgm := s.bgm) == s
    // ... and with overtime it turns red and counts up in the same tick
    ensures !s.overtime && s.remaining == 0 && overtimeMode ==>
      && r.next.running && r.next.overtime && r.next.remaining == 1
      && r.next.foreground == Red && r.redraw
    // an overtime second: it never chimes and never leaves overtime
    ensures s.overtime ==>
      && r.next.overtime && r.next.initial == s.initial && r.next.foreground == s.foreground
      && r.next.bgm.source == s.bgm.source && r.next.bgm.muted == s.bgm.muted
      && r.next.chime == s.chime && r.redraw
    // ... counting up to one past 99:00
    ensures s.overtime && s.remaining <= LastCountingValue ==>
      && r.out == [] && r.next.running && r.next.bgm == s.bgm
      && r.next.remaining == s.remaining + 1
    // ... and stopping beyond that
    ensures s.overtime && s.remaining > LastCountingValue ==>
      && r.out == [BgmStop] && !r.next.running && !r.next.bgm.playing
      && r.next.remaining == s.remaining
  {
    if s.remaining > 0 && !s.overtime then
      Step(s.(remaining := s.remaining - 1), [], true)
    else if !s.overtime && !overtimeMode then
      // StopTimer and return, before UpdateTimerDisplay
      Step(StopTimer(s), [TimeUpSound(s.chime), BgmStop], false)
    else
      var entered :=
        if s.overtime then s else s.(overtime := true, bgm := Halted(s.bgm), foreground := Red);
      var chimed := if s.overtime then [] else [TimeUpSound(s.chime), BgmStop];
      if MayCountOn(entered.remaining) then
        Step(entered.(remaining := entered.remaining + 1), chimed, true)
      else
        Step(StopTimer(entered), chimed + [BgmStop], true)
  }

  /** The text a tick leaves is the one its new state formats to, also on the tick that returns
      before redrawing: that state still shows 00:00, the text the tick before it wrote. */
  lemma TickText(s: State, overtimeMode: bool, display: string)
    requires s.running && display == Format(s.remaining, s.overtime)
    ensures var r := Tick(s, overtimeMode);
            (if r.redraw then Format(r.next.remaining, r.next.overtime) else display)
            == Format(r.next.remaining, r.next.overtime)
  {
  }

  /** StartPauseButton_Click. */
  function StartPause(s: State): (r: Step)
    // pause: the timer stops and the BGM pauses
    ensures s.running ==>
      && r.out == [BgmPause] && !r.next.running && !r.next.bgm.playing
      && r.next.(running := s.running, bgm := s.bgm) == s
      && r.next.bgm.(playing := s.bgm.playing) == s.bgm
    // start is refused, with no call at all, exactly when the DURATION is zero outside overtime
    ensures !s.running ==> (r == Step(s, [], false) <==> s.initial == 0 && !s.overtime)
    // an accepted start runs the timer and plays the BGM unless in overtime or without a track
    ensures !s.running && !(s.initial == 0 && !s.overtime) ==>
      && r.next.running
      && r.out == (if s.bgm.source.Some? && !s.overtime then [BgmPlay] else [])
      && r.next.bgm.playing == (s.bgm.playing || (s.bgm.source.Some? && !s.overtime))
      && r.next.(running := s.running, bgm := s.bgm) == s
  {
    if s.running then
      Step(s.(running := false, bgm := Halted(s.bgm)), [BgmPause], false)
    else if s.initial == 0 && !s.overtime then
      Step(s, [], false)
    else if s.bgm.source.Some? && !s.overtime then
      Step(s.(running := true, bgm := Played(s.bgm)), [BgmPlay], false)
    else
      Step(s.(running := true), [], false)
  }

  /** ResetButton_Click and ResetToInitialTime (the two do the same). */
  function ResetToInitial(s: State): (r: Step)
    ensures !r.next.running && !r.next.overtime && r.next.remaining == r.next.initial == s.initial
    ensures r.next.foreground == ControlText
    ensures r.out == [BgmStop] && !r.next.bgm.playing && r.redraw
    ensures r.next.bgm.source == s.bgm.source && r.next.bgm.muted == s.bgm.muted
    ensures r.next.chime == s.chime
  {
    var stopped := StopTimer(s);
    Step(stopped.(overtime := false, foreground := ControlText, remaining := s.initial), [BgmStop], true)
  }

  /** SetTimeButton_Click: which message box, if any, it shows for the parsed boxes. */
  function SetTimeOutcome(s: State, boxes: Inputs): (o: Outcome)
    ensures o == Accepted <==> !s.running && InRange(boxes)
    ensures s.running ==> o == TimerRunning
    ensures o == NotNumeric <==> !s.running && (boxes.minutes.None? || boxes.seconds.None?)
    ensures o == OutOfRange <==>
      !s.running && boxes.minutes.Some? && boxes.seconds.Some? && !InRange(boxes)
  {
    if s.running then TimerRunning
    else if boxes.minutes.None? || boxes.seconds.None? then NotNumeric
    else if InRange(boxes) then Accepted
    else OutOfRange
  }

  /** SetTimeButton_Click: an accepted duration replaces the initial time and resets to it;
      anything else changes nothing. */
  function SetTime(s: State, boxes: Inputs): (r: Step)
    ensures SetTimeOutcome(s, boxes) != Accepted ==> r == Step(s, [], false)
    ensures SetTimeOutcome(s, boxes) == Accepted ==>
      && r.next.initial == 60 * boxes.minutes.value + boxes.seconds.value
      && r == ResetToInitial(s.(initial := r.next.initial))
  {
    if SetTimeOutcome(s, boxes) == Accepted then ResetToInitial(s.(initial := Duration(boxes)))
    else Step(s, [], false)
  }

  /** PresetButton_Click: the button's tag, parsed (None when it does not parse). A running
      timer refuses with a message; a tag that does not parse is ignored silently. */
  function PresetOutcome(s: State, tag: Option<Int32>): (o: Outcome)
    ensures o == Accepted <==> !s.running && tag.Some?
    ensures s.running ==> o == TimerRunning
    ensures !s.running && tag.None? ==> o == Ignored
  {
    if s.running then TimerRunning else if tag.None? then Ignored else Accepted
  }

  function Preset(s: State, tag: Option<Int32>): (r: Step)
    requires tag.Some? ==> tag.value >= 0
    ensures PresetOutcome(s, tag) != Accepted ==> r == Step(s, [], false)
    ensures PresetOutcome(s, tag) == Accepted ==>
      && r.next.initial == 60 * tag.value
      && r == ResetToInitial(s.(initial := r.next.initial))
  {
    if PresetOutcome(s, tag) == Accepted then ResetToInitial(s.(initial := 60 * tag.value))
    else Step(s, [], false)
  }

  /** BGMComboBox_SelectionChanged: an index into the BGM list opens that track and plays it
      whenever the timer runs, in overtime too; any other index does nothing. */
  function SelectBgm(s: State, files: seq<string>, index: int): (r: Step)
    ensures !(0 <= index < |files|) ==> r == Step(s, [], false)
    ensures 0 <= index < |files| ==>
      && r.next.bgm.source == Some(files[index]) && r.next.bgm.muted == s.bgm.muted
      && (r.next.bgm.playing <==> s.running)
      && r.out == [BgmOpen(files[index])] + (if s.running then [BgmPlay] else [])
      && r.next.(bgm := s.bgm) == s
  {
    if 0 <= index < |files| then
      var loaded := Opened(s.bgm, files[index]);
      if s.running then Step(s.(bgm := Played(loaded)), [BgmOpen(files[index]), BgmPlay], false)
      else Step(s.(bgm := loaded), [BgmOpen(files[index])], false)
    else Step(s, [], false)
  }

  /** TimeUpComboBox_SelectionChanged: an index into the chime list opens that track. */
  function SelectChime(s: State, files: seq<string>, index: int): (r: Step)
    ensures !(0 <= index < |files|) ==> r == Step(s, [], false)
    ensures 0 <= index < |files| ==>
      r.next.chime == Some(files[index]) && r.out == [ChimeOpen(files[index])] && r.next.(chime := s.chime) == s
  {
    if 0 <= index < |files| then Step(s.(chime := Some(files[index])), [ChimeOpen(files[index])], false)
    else Step(s, [], false)
  }

  /** MuteBGMCheckBox_Checked / _Unchecked (the player always exists by then): only the muted
      flag changes, by the one write to IsMuted. */
  function SetMuted(s: State, muted: bool): (r: Step)
    ensures r.next.bgm.muted == muted && r.out == [BgmMute(muted)]
    ensures r.next.(bgm := r.next.bgm.(muted := s.bgm.muted)) == s
  {
    Step(s.(bgm := s.bgm.(muted := muted)), [BgmMute(muted)], false)
  }

  /** MediaPlayer_MediaEnded: the BGM rewinds and plays again, whatever the timer does. */
  function MediaEnded(s: State): (r: Step)
    ensures r.out == [BgmRewind, BgmPlay]
    ensures r.next.bgm.playing == s.bgm.source.Some?
    ensures r.next.(bgm := s.bgm) == s && r.next.bgm.(playing := s.bgm.playing) == s.bgm
  {
    Step(s.(bgm := Played(s.bgm)), [BgmRewind, BgmPlay], false)
  }

  // ---- Every handler keeps the state consistent ----

  lemma TickKeepsValid(s: State, overtimeMode: bool)
    requires Valid(s) && s.running
    ensures Valid(Tick(s, overtimeMode).next)
  {
  }

  lemma StartPauseKeepsValid(s: State)
    requires Valid(s)
    ensures Valid(StartPause(s).next)
  {
  }

  lemma DurationChangesKeepValid(s: State, boxes: Inputs, tag: Option<Int32>)
    requires Valid(s)
    requires tag.Some? ==> tag.value >= 0
    ensures Valid(ResetToInitial(s).next)
    ensures Valid(SetTime(s, boxes).next)
    ensures Valid(Preset(s, tag).next)
  {
  }

  lemma ChannelChangesKeepValid(s: State, files: seq<string>, index: int, muted: bool)
    requires Valid(s)
    ensures Valid(SelectBgm(s, files, index).next) && Valid(SelectChime(s, files, index).next)
    ensures Valid(SetMuted(s, muted).next) && Valid(MediaEnded(s).next)
  {
  }

  lemma ReplayTwo(b: Bgm, chime: Option<string>, c: Command, d: Command)
    ensures Replay(b, chime, [c, d]) == Replay(BgmAfter(b, c), ChimeAfter(chime, c), [d])
  {
    assert [c, d][1..] == [d];
  }

  /** Every handler changes the players exactly as its calls, replayed in order, would. */
  lemma {:induction false} TickFollowsCalls(s: State, overtimeMode: bool)
    requires s.running
    ensures FollowsCalls(s, Tick(s, overtimeMode))
  {
    var r := Tick(s, overtimeMode);
    if !s.overtime && s.remaining == 0 {
      ReplayTwo(s.bgm, s.chime, TimeUpSound(s.chime), BgmStop);
    } else if s.overtime && !(s.remaining <= LastCountingValue) {
      assert r.out == [BgmStop];
      assert Replay(BgmAfter(s.bgm, BgmStop), s.chime, []) == (Halted(s.bgm), s.chime);
    }
  }

  lemma ReplayOne(b: Bgm, chime: Option<string>, c: Command)
    ensures Replay(b, chime, [c]) == (BgmAfter(b, c), ChimeAfter(chime, c))
  {
    assert [c][1..] == [];
  }

  lemma {:induction false} DurationHandlersFollowCalls(s: State, boxes: Inputs, tag: Option<Int32>)
    requires tag.Some? ==> tag.value >= 0
    ensures FollowsCalls(s, StartPause(s)) && FollowsCalls(s, ResetToInitial(s))
    ensures FollowsCalls(s, SetTime(s, boxes)) && FollowsCalls(s, Preset(s, tag))
  {
    ReplayOne(s.bgm, s.chime, BgmPause);
    ReplayOne(s.bgm, s.chime, BgmPlay);
    ReplayOne(s.bgm, s.chime, BgmStop);
    if SetTimeOutcome(s, boxes) == Accepted {
      ReplayOne(s.bgm, s.chime, BgmStop);
    }
    if PresetOutcome(s, tag) == Accepted {
      ReplayOne(s.bgm, s.chime, BgmStop);
    }
  }

  lemma {:induction false} ChannelHandlersFollowCalls(s: State, files: seq<string>, index: int, muted: bool)
    ensures FollowsCalls(s, SelectBgm(s, files, index)) && FollowsCalls(s, SelectChime(s, files, index))
    ensures FollowsCalls(s, MediaEnded(s)) && FollowsCalls(s, SetMuted(s, muted))
  {
    ReplayOne(s.bgm, s.chime, BgmMute(muted));
    if 0 <= index < |files| {
      ReplayOne(s.bgm, s.chime, BgmOpen(files[index]));
      ReplayTwo(s.bgm, s.chime, BgmOpen(files[index]), BgmPlay);
      ReplayOne(Opened(s.bgm, files[index]), s.chime, BgmPlay);
      ReplayOne(s.bgm, s.chime, ChimeOpen(files[index]));
    }
    ReplayTwo(s.bgm, s.chime, BgmRewind, BgmPlay);
    ReplayOne(s.bgm, s.chime, BgmPlay);
  }

  /** The constructor's calls, replayed on two idle players, open exactly the tracks the
      initial state has open, and start nothing. */
  lemma InitialFollowsCalls(bgmFiles: seq<string>, chimeFiles: seq<string>)
    ensures var s := Initial(bgmFiles, chimeFiles);
            Replay(Bgm(None, false, false), None, InitialLog(bgmFiles, chimeFiles)) == (s.bgm, s.chime)
  {
    var idle := Bgm(None, false, false);
    var bgmOut := if |bgmFiles| > 0 then [BgmOpen(bgmFiles[0]), BgmOpen(bgmFiles[0])] else [];
    var chimeOut := if |chimeFiles| > 0 then [ChimeOpen(chimeFiles[0]), ChimeOpen(chimeFiles[0])] else [];
    var loaded := if |bgmFiles| > 0 then Bgm(Some(bgmFiles[0]), false, false) else idle;
    ReplayAppend(idle, None, bgmOut, chimeOut);
    if |bgmFiles| > 0 {
      ReplayTwo(idle, None, BgmOpen(bgmFiles[0]), BgmOpen(bgmFiles[0]));
      ReplayOne(Opened(idle, bgmFiles[0]), None, BgmOpen(bgmFiles[0]));
    }
    assert Replay(idle, None, bgmOut) == (loaded, None);
    if |chimeFiles| > 0 {
      ReplayTwo(loaded, None, ChimeOpen(chimeFiles[0]), ChimeOpen(chimeFiles[0]));
      ReplayOne(loaded, Some(chimeFiles[0]), ChimeOpen(chimeFiles[0]));
    }
  }

  /** Replaying two call sequences one after the other is replaying their concatenation. */
  lemma {:induction false} ReplayAppend(b: Bgm, chime: Option<string>, x: seq<Command>, y: seq<Command>)
    ensures Replay(b, chime, x + y) == Replay(Replay(b, chime, x).0, Replay(b, chime, x).1, y)
    decreases |x|
  {
    if x == [] {
      assert x + y == y;
    } else {
      assert (x + y)[0] == x[0] && (x + y)[1..] == x[1..] + y;
      ReplayAppend(BgmAfter(b, x[0]), ChimeAfter(chime, x[0]), x[1..], y);
    }
  }

  /** The track the window opens first on a loaded list is the least of the list in its order:
      that is what sorting the list decides. */
  lemma FirstTrackIsLeast(directory: Option<seq<string>>, x: string)
    requires x in TrackLibrary.LoadAudioFiles(directory)
    ensures First(TrackLibrary.LoadAudioFiles(directory)).Some?
    ensures TrackLibrary.NoLater(First(TrackLibrary.LoadAudioFiles(directory)).value, x)
  {
    TrackLibrary.SortedHead(TrackLibrary.LoadAudioFiles(directory), x);
  }

  /** Reset is idempotent, and what it leaves depends only on the duration and the players. */
  lemma ResetIdempotent(s: State, t: State)
    requires t.initial == s.initial && t.chime == s.chime
    requires t.bgm.source == s.bgm.source && t.bgm.muted == s.bgm.muted
    ensures ResetToInitial(ResetToInitial(s).next).next == ResetToInitial(s).next
    ensures ResetToInitial(t).next == ResetToInitial(s).next
  {
  }
}
