/**
  The window's code-behind (MainWindow): the fields its event handlers update in place and the
  handlers themselves, step by step as the window runs them. Each handler is specified by the
  function of module Engine that states what it does; the call log records, in order, every
  call the window makes on its two media players and on the system sounds.
*/
module Window {
  import opened Wrappers
  import opened TrackLibrary
  import opened TimerDisplay
  import TimeInputs
  import Engine

  class MainWindow {
    var timeRemaining: nat                 // _timeRemaining, in seconds
    var initialTime: nat                   // _initialTime, in seconds
    var timerRunning: bool                 // _timerRunning
    var isOvertime: bool                   // _isOvertime
    var foreground: Engine.Foreground      // TimerDisplay.Foreground
    var display: string                    // TimerDisplay.Text
    var bgmPlayer: Engine.Bgm              // _mediaPlayer
    var chimeSource: Option<string>        // _timeUpMediaPlayer.Source
    var inputs: TimeInputs.Inputs          // MinutesInput.Text and SecondsInput.Text, parsed
    var log: seq<Engine.Command>           // the calls made on the players, in order
    const bgmFiles: seq<string>            // _bgmFiles
    const chimeFiles: seq<string>          // _chimeFiles

    /** The fields the handlers decide on, as one value. */
    function Snapshot(): Engine.State
      reads this
    {
      Engine.State(timeRemaining, initialTime, timerRunning, isOvertime, foreground, bgmPlayer, chimeSource)
    }

    ghost predicate Valid()
      reads this
    {
      && Engine.Valid(Snapshot())
      && display == Format(timeRemaining, isOvertime)
      && Engine.Sourced(bgmPlayer.source, bgmFiles)
      && Engine.Sourced(chimeSource, chimeFiles)
    }

    /** The constructor and LoadAndBindAudioFiles: a directory is given as its files, or None
        when it does not exist; startInputs is what the two boxes hold when the window opens. */
    constructor (bgmDirectory: Option<seq<string>>, chimeDirectory: Option<seq<string>>,
                 startInputs: TimeInputs.Inputs)
      ensures Valid()
      ensures bgmFiles == LoadAudioFiles(bgmDirectory) && chimeFiles == LoadAudioFiles(chimeDirectory)
      ensures Snapshot() == Engine.Initial(bgmFiles, chimeFiles)
      ensures log == Engine.InitialLog(bgmFiles, chimeFiles)
      ensures display == "05:00" && inputs == startInputs
    {
      var bgm := LoadAudioFiles(bgmDirectory);
      var chime := LoadAudioFiles(chimeDirectory);
      // five minutes, idle, and the first track of each list selected and opened
      var start := Engine.Initial(bgm, chime);
      initialTime := start.initial;
      timeRemaining := start.remaining;
      timerRunning, isOvertime := start.running, start.overtime;
      foreground := start.foreground;
      FormatDefault();
      display := Format(start.remaining, start.overtime);
      inputs := startInputs;
      bgmFiles, chimeFiles := bgm, chime;
      bgmPlayer := start.bgm;
      chimeSource := start.chime;
      // for each list that is not empty, SelectedIndex = 0 runs the SelectionChanged handler,
      // which opens the first track, and the constructor then opens it again
      log := Engine.InitialLog(bgm, chime);
    }

    /** One call on a player: the player changes as Engine says and the call is logged. */
    method Call(c: Engine.Command)
      modifies this
      ensures bgmPlayer == Engine.BgmAfter(old(bgmPlayer), c)
      ensures chimeSource == Engine.ChimeAfter(old(chimeSource), c)
      ensures log == old(log) + [c]
      ensures timeRemaining == old(timeRemaining) && initialTime == old(initialTime)
      ensures timerRunning == old(timerRunning) && isOvertime == old(isOvertime)
      ensures foreground == old(foreground) && display == old(display) && inputs == old(inputs)
    {
      bgmPlayer := Engine.BgmAfter(bgmPlayer, c);
      chimeSource := Engine.ChimeAfter(chimeSource, c);
      log := log + [c];
    }

    method UpdateTimerDisplay()
      modifies this
      ensures display == Format(timeRemaining, isOvertime)
      ensures Snapshot() == old(Snapshot()) && log == old(log) && inputs == old(inputs)
    {
      display := Format(timeRemaining, isOvertime);
    }

    method StopTimer()
      modifies this
      ensures Snapshot() == Engine.StopTimer(old(Snapshot()))
      ensures log == old(log) + [Engine.BgmStop]
      ensures display == old(display) && inputs == old(inputs)
    {
      timerRunning := false;
      Call(Engine.BgmStop);
    }

    method PlayTimeUpSound()
      modifies this
      ensures log == old(log) + [Engine.TimeUpSound(old(chimeSource))]
      ensures Snapshot() == old(Snapshot()) && display == old(display) && inputs == old(inputs)
    {
      if chimeSource.Some? {
        Call(Engine.ChimeRestart);
      } else {
        Call(Engine.SystemExclamation);
      }
    }

    /** Timer_Tick; overtimeMode is the state of the overtime check box. */
    method Tick(overtimeMode: bool)
      requires Valid() && timerRunning
      modifies this
      ensures Valid()
      ensures Snapshot() == Engine.Tick(old(Snapshot()), overtimeMode).next
      ensures log == old(log) + Engine.Tick(old(Snapshot()), overtimeMode).out
      ensures display == if Engine.Tick(old(Snapshot()), overtimeMode).redraw
                         then Format(timeRemaining, isOvertime) else old(display)
      ensures inputs == old(inputs)
    {
      Engine.TickKeepsValid(Snapshot(), overtimeMode);
      if timeRemaining > 0 && !isOvertime {
        timeRemaining := timeRemaining - 1;
      } else {
        if !isOvertime {
          PlayTimeUpSound();
          if overtimeMode {
            EnterOvertime();
          } else {
            StopTimer();
            return;
          }
        }
        if isOvertime {
          CountOvertime();
        }
      }
      UpdateTimerDisplay();
    }

    /** The overtime branch of Timer_Tick: red text, and the BGM stops. */
    method EnterOvertime()
      modifies this
      ensures Snapshot() == old(Snapshot()).(overtime := true, bgm := Engine.Halted(old(bgmPlayer)), foreground := Engine.Red)
      ensures log == old(log) + [Engine.BgmStop]
      ensures display == old(display) && inputs == old(inputs)
    {
      isOvertime := true;
      Call(Engine.BgmStop);
      foreground := Engine.Red;
    }

    /** An overtime second of Timer_Tick: one more second, or the timer stops past the cap. */
    method CountOvertime()
      modifies this
      ensures Snapshot() == if Engine.MayCountOn(old(timeRemaining))
                            then old(Snapshot()).(remaining := old(timeRemaining) + 1)
                            else Engine.StopTimer(old(Snapshot()))
      ensures log == old(log) + if Engine.MayCountOn(old(timeRemaining)) then [] else [Engine.BgmStop]
      ensures display == old(display) && inputs == old(inputs)
    {
      if Engine.MayCountOn(timeRemaining) {
        timeRemaining := timeRemaining + 1;
      } else {
        StopTimer();
      }
    }

    /** StartPauseButton_Click. */
    method StartPause()
      requires Valid()
      modifies this
      ensures Valid()
      ensures Snapshot() == Engine.StartPause(old(Snapshot())).next
      ensures log == old(log) + Engine.StartPause(old(Snapshot())).out
      ensures display == old(display) && inputs == old(inputs)
    {
      Engine.StartPauseKeepsValid(Snapshot());
      if timerRunning {
        Call(Engine.BgmPause);
      } else {
        if initialTime == 0 && !isOvertime {
          return;
        }
        if bgmPlayer.source.Some? && !isOvertime {
          Call(Engine.BgmPlay);
        }
      }
      timerRunning := !timerRunning;
    }

    /** ResetToInitialTime; ResetButton_Click runs the same statements. */
    method ResetToInitialTime()
      requires Engine.Sourced(bgmPlayer.source, bgmFiles) && Engine.Sourced(chimeSource, chimeFiles)
      requires bgmPlayer.playing ==> bgmPlayer.source.Some?
      modifies this
      ensures Valid()
      ensures Snapshot() == Engine.ResetToInitial(old(Snapshot())).next
      ensures log == old(log) + Engine.ResetToInitial(old(Snapshot())).out
      ensures inputs == old(inputs)
    {
      StopTimer();
      isOvertime := false;
      foreground := Engine.ControlText;
      timeRemaining := initialTime;
      UpdateTimerDisplay();
    }

    /** ResetButton_Click. */
    method Reset()
      requires Valid()
      modifies this
      ensures Valid()
      ensures Snapshot() == Engine.ResetToInitial(old(Snapshot())).next
      ensures log == old(log) + Engine.ResetToInitial(old(Snapshot())).out
      ensures inputs == old(inputs)
    {
      ResetToInitialTime();
    }

    /** SetTimeButton_Click on what the two boxes parse to; the outcome names the message box. */
    method SetTime() returns (outcome: Engine.Outcome)
      requires Valid()
      modifies this
      ensures Valid()
      ensures outcome == Engine.SetTimeOutcome(old(Snapshot()), old(inputs))
      ensures Snapshot() == Engine.SetTime(old(Snapshot()), old(inputs)).next
      ensures log == old(log) + Engine.SetTime(old(Snapshot()), old(inputs)).out
      ensures outcome != Engine.Accepted ==> display == old(display)
      ensures inputs == old(inputs)
    {
      if timerRunning {
        return Engine.TimerRunning;
      }
      if inputs.minutes.Some? && inputs.seconds.Some? {
        var minutes: int, seconds: int := inputs.minutes.value, inputs.seconds.value;
        if minutes >= 0 && seconds >= 0 && seconds < 60 {
          initialTime := 60 * minutes + seconds;
          ResetToInitialTime();
          outcome := Engine.Accepted;
        } else {
          outcome := Engine.OutOfRange;
        }
      } else {
        outcome := Engine.NotNumeric;
      }
    }

    /** PresetButton_Click; tag is the button's tag, parsed. An accepted preset also writes the
        boxes: the minutes, and 0 seconds. */
    method Preset(tag: Option<TimeInputs.Int32>) returns (outcome: Engine.Outcome)
      requires Valid()
      requires tag.Some? ==> tag.value >= 0
      modifies this
      ensures Valid()
      ensures outcome == Engine.PresetOutcome(old(Snapshot()), tag)
      ensures Snapshot() == Engine.Preset(old(Snapshot()), tag).next
      ensures log == old(log) + Engine.Preset(old(Snapshot()), tag).out
      ensures outcome == Engine.Accepted ==> inputs == TimeInputs.Inputs(Some(tag.value), Some(0))
      ensures outcome != Engine.Accepted ==> inputs == old(inputs) && display == old(display)
    {
      if timerRunning {
        return Engine.TimerRunning;
      }
      if tag.Some? {
        initialTime := 60 * tag.value;
        inputs := TimeInputs.Inputs(Some(tag.value), Some(0));
        ResetToInitialTime();
        outcome := Engine.Accepted;
      } else {
        outcome := Engine.Ignored;
      }
    }

    /** UpdateMinutes, behind the minutes "+" and "-" buttons (change 1 and -1). */
    method UpdateMinutes(change: TimeInputs.Int32)
      modifies this
      ensures inputs == TimeInputs.UpdateMinutes(old(inputs), change)
      ensures Snapshot() == old(Snapshot()) && log == old(log) && display == old(display)
    {
      if inputs.minutes.Some? {
        var minutes := TimeInputs.Wrap(inputs.minutes.value + change);
        if minutes < 0 {
          minutes := 0;
        }
        inputs := inputs.(minutes := Some(minutes));
      }
    }

    /** UpdateSeconds, behind the seconds "+" and "-" buttons (change 1 and -1). */
    method UpdateSeconds(change: TimeInputs.Int32)
      modifies this
      ensures inputs == TimeInputs.UpdateSeconds(old(inputs), change)
      ensures Snapshot() == old(Snapshot()) && log == old(log) && display == old(display)
    {
      if inputs.seconds.Some? {
        var seconds := TimeInputs.Wrap(inputs.seconds.value + change);
        if seconds >= 60 {
          UpdateMinutes(1);
          seconds := 0;
        } else if seconds < 0 {
          UpdateMinutes(-1);
          seconds := 59;
        }
        inputs := inputs.(seconds := Some(seconds));
      }
    }

    /** The user edits the boxes; the values are what int.TryParse makes of the new text. */
    method EditInputs(edited: TimeInputs.Inputs)
      modifies this
      ensures inputs == edited
      ensures Snapshot() == old(Snapshot()) && log == old(log) && display == old(display)
    {
      inputs := edited;
    }

    /** BGMComboBox_SelectionChanged with the selected index. */
    method SelectBgm(index: int)
      requires Valid()
      modifies this
      ensures Valid()
      ensures Snapshot() == Engine.SelectBgm(old(Snapshot()), bgmFiles, index).next
      ensures log == old(log) + Engine.SelectBgm(old(Snapshot()), bgmFiles, index).out
      ensures display == old(display) && inputs == old(inputs)
    {
      if 0 <= index < |bgmFiles| {
        Call(Engine.BgmOpen(bgmFiles[index]));
        if timerRunning {
          Call(Engine.BgmPlay);
        }
      }
    }

    /** TimeUpComboBox_SelectionChanged with the selected index. */
    method SelectChime(index: int)
      requires Valid()
      modifies this
      ensures Valid()
      ensures Snapshot() == Engine.SelectChime(old(Snapshot()), chimeFiles, index).next
      ensures log == old(log) + Engine.SelectChime(old(Snapshot()), chimeFiles, index).out
      ensures display == old(display) && inputs == old(inputs)
    {
      if 0 <= index < |chimeFiles| {
        Call(Engine.ChimeOpen(chimeFiles[index]));
      }
    }

    /** MuteBGMCheckBox_Checked (muted) and MuteBGMCheckBox_Unchecked (not muted). */
    method SetMuted(muted: bool)
      requires Valid()
      modifies this
      ensures Valid()
      ensures Snapshot() == Engine.SetMuted(old(Snapshot()), muted).next
      ensures log == old(log) + Engine.SetMuted(old(Snapshot()), muted).out
      ensures display == old(display) && inputs == old(inputs)
    {
      Call(Engine.BgmMute(muted));
    }

    /** MediaPlayer_MediaEnded, delivered in turn with the other events. */
    method MediaEnded()
      requires Valid()
      modifies this
      ensures Valid()
      ensures Snapshot() == Engine.MediaEnded(old(Snapshot())).next
      ensures log == old(log) + Engine.MediaEnded(old(Snapshot())).out
      ensures display == old(display) && inputs == old(inputs)
    {
      Call(Engine.BgmRewind);
      Call(Engine.BgmPlay);
    }
  }
}
