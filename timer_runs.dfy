/**
  Runs of the timer: the DispatcherTimer delivering several ticks in a row while the overtime
  check box keeps one state. What the handlers promise one tick at a time (module Engine)
  adds up here to what the window promises over a whole countdown and a whole overtime.
*/
module TimerRuns {
  import opened Wrappers
  import opened TimerDisplay
  import opened Engine

  /** The state after a run of ticks and all the calls made on the way. */
  datatype Run = Run(next: State, out: seq<Command>)

  /** n ticks; once the timer has stopped no further tick arrives. */
  function RunTicks(s: State, overtimeMode: bool, n: nat): (r: Run)
    // ticks never change the duration nor which tracks are open, and each makes at most two calls
    ensures r.next.initial == s.initial && r.next.chime == s.chime
    ensures r.next.bgm.source == s.bgm.source && r.next.bgm.muted == s.bgm.muted
    ensures |r.out| <= 2 * n
    decreases n
  {
    if n == 0 || !s.running then Run(s, [])
    else
      var t := Tick(s, overtimeMode);
      var u := RunTicks(t.next, overtimeMode, n - 1);
      Run(u.next, t.out + u.out)
  }

  /** One tick, then the rest of the run. */
  lemma RunTicksUnfold(s: State, overtimeMode: bool, n: nat)
    requires n > 0 && s.running
    ensures var t := Tick(s, overtimeMode);
            var rest := RunTicks(t.next, overtimeMode, n - 1);
            RunTicks(s, overtimeMode, n) == Run(rest.next, t.out + rest.out)
  {
  }

  /** A stopped timer gets no tick. */
  lemma RunTicksStopped(s: State, overtimeMode: bool, n: nat)
    requires !s.running
    ensures RunTicks(s, overtimeMode, n) == Run(s, [])
  {
  }

  /** a + b ticks are a ticks followed by b ticks. */
  lemma {:induction false} RunTicksSplit(s: State, overtimeMode: bool, a: nat, b: nat)
    ensures var first := RunTicks(s, overtimeMode, a);
            var second := RunTicks(first.next, overtimeMode, b);
            RunTicks(s, overtimeMode, a + b) == Run(second.next, first.out + second.out)
    decreases a
  {
    if a == 0 {
      assert [] + RunTicks(s, overtimeMode, b).out == RunTicks(s, overtimeMode, b).out;
    } else if !s.running {
      RunTicksStopped(s, overtimeMode, a);
      RunTicksStopped(s, overtimeMode, b);
      RunTicksStopped(s, overtimeMode, a + b);
    } else {
      RunTicksUnfold(s, overtimeMode, a);
      RunTicksUnfold(s, overtimeMode, a + b);
      var t := Tick(s, overtimeMode);
      var rest := RunTicks(t.next, overtimeMode, a - 1);
      AppendAssoc(t.out, rest.out, RunTicks(rest.next, overtimeMode, b).out);
      RunTicksSplit(t.next, overtimeMode, a - 1, b);
      assert a + b - 1 == (a - 1) + b;
    }
  }

  lemma AppendAssoc(x: seq<Command>, y: seq<Command>, z: seq<Command>)
    ensures x + (y + z) == (x + y) + z
  {
  }

  /** No run leaves the consistent states; in particular overtime never passes OvertimeCap. */
  lemma {:induction false} RunTicksKeepsValid(s: State, overtimeMode: bool, n: nat)
    requires Valid(s)
    ensures Valid(RunTicks(s, overtimeMode, n).next)
    ensures RunTicks(s, overtimeMode, n).next.overtime ==> RunTicks(s, overtimeMode, n).next.remaining <= OvertimeCap
    decreases n
  {
    if n > 0 && s.running {
      TickKeepsValid(s, overtimeMode);
      RunTicksKeepsValid(Tick(s, overtimeMode).next, overtimeMode, n - 1);
    }
  }

  /** Counting down: each of the first `remaining` ticks takes one second off and makes no call. */
  lemma {:induction false} CountdownReachesZero(s: State, overtimeMode: bool, n: nat)
    requires Valid(s) && s.running && !s.overtime && n <= s.remaining
    ensures RunTicks(s, overtimeMode, n) ==
      Run(s.(remaining := s.remaining - n), [])
    decreases n
  {
    if n > 0 {
      var t := Tick(s, overtimeMode);
      TickKeepsValid(s, overtimeMode);
      CountdownReachesZero(t.next, overtimeMode, n - 1);
    }
  }

  /** A run through the countdown is, after its silent countdown seconds, a run from 00:00. */
  lemma AfterCountdown(s: State, overtimeMode: bool, n: nat)
    requires Valid(s) && s.running && !s.overtime && n >= s.remaining
    ensures RunTicks(s, overtimeMode, n) == RunTicks(s.(remaining := 0), overtimeMode, n - s.remaining)
  {
    var k := s.remaining;
    RunTicksSplit(s, overtimeMode, k, n - k);
    CountdownReachesZero(s, overtimeMode, k);
    var second := RunTicks(s.(remaining := 0), overtimeMode, n - k);
    assert [] + second.out == second.out;
  }

  /** Overtime counts up one second per tick, without a call, up to OvertimeCap. */
  lemma {:induction false} OvertimeCountsUp(s: State, overtimeMode: bool, n: nat)
    requires Valid(s) && s.running && s.overtime && s.remaining + n <= OvertimeCap
    ensures RunTicks(s, overtimeMode, n) ==
      Run(s.(remaining := s.remaining + n), [])
    decreases n
  {
    if n > 0 {
      var t := Tick(s, overtimeMode);
      TickKeepsValid(s, overtimeMode);
      OvertimeCountsUp(t.next, overtimeMode, n - 1);
    }
  }

  /** The overtime counter is 99:01 when the timer force-stops; the text, which drops whole
      hours, then reads +39:01. No further tick changes anything. */
  lemma OvertimeStopsAtCap(s: State, overtimeMode: bool, n: nat)
    requires Valid(s) && s.running && s.overtime && s.remaining + n > OvertimeCap
    ensures var r := RunTicks(s, overtimeMode, n);
            && !r.next.running && r.next.overtime && r.next.remaining == OvertimeCap
            && Format(r.next.remaining, r.next.overtime) == "+39:01" && r.out == [BgmStop]
  {
    var k: nat := OvertimeCap - s.remaining;
    RunTicksSplit(s, overtimeMode, k, n - k);
    OvertimeCountsUp(s, overtimeMode, k);
    var atCap := RunTicks(s, overtimeMode, k).next;
    var stopped := Tick(atCap, overtimeMode).next;
    assert RunTicks(stopped, overtimeMode, n - k - 1) == Run(stopped, []);
    assert RunTicks(atCap, overtimeMode, n - k) == Run(stopped, [BgmStop]);
    FormatCap();
  }

  lemma FormatCap()
    ensures Format(OvertimeCap, true) == "+39:01"
  {
    assert (OvertimeCap / 60) % 60 == 39 && OvertimeCap % 60 == 1;
  }

  /** Once in overtime, no tick chimes again and overtime is never left. */
  lemma {:induction false} NoChimeInOvertime(s: State, overtimeMode: bool, n: nat)
    requires s.overtime
    ensures RunTicks(s, overtimeMode, n).next.overtime
    ensures forall c :: c in RunTicks(s, overtimeMode, n).out ==> !IsChime(c)
    decreases n
  {
    if n > 0 && s.running {
      var t := Tick(s, overtimeMode);
      NoChimeInOvertime(t.next, overtimeMode, n - 1);
    }
  }

  /** From 00:00 with the overtime box checked: one chime, the BGM stops, and no chime after. */
  lemma IntoOvertime(z: State, n: nat)
    requires z.running && !z.overtime && z.remaining == 0 && n > 0
    ensures var r := RunTicks(z, true, n);
            && r.next.overtime
            && |r.out| >= 2 && r.out[0] == TimeUpSound(z.chime) && r.out[1] == BgmStop
            && forall i :: 2 <= i < |r.out| ==> !IsChime(r.out[i])
  {
    var t := Tick(z, true);
    RunTicksUnfold(z, true, n);
    NoChimeInOvertime(t.next, true, n - 1);
    var rest := RunTicks(t.next, true, n - 1);
    var out := t.out + rest.out;
    forall i | 2 <= i < |out| ensures !IsChime(out[i]) {
      assert out[i] == rest.out[i - 2] && out[i] in rest.out;
    }
  }

  /** With the overtime box checked, a countdown run through zero chimes exactly once, at the
      tick after the last countdown second, stops the BGM right after, and stays in overtime. */
  lemma ChimesOnceIntoOvertime(s: State, n: nat)
    requires Valid(s) && s.running && !s.overtime && n > s.remaining
    ensures var r := RunTicks(s, true, n);
            && r.next.overtime
            && |r.out| >= 2 && r.out[0] == TimeUpSound(s.chime) && r.out[1] == BgmStop
            && forall i :: 1 <= i < |r.out| ==> !IsChime(r.out[i])
  {
    AfterCountdown(s, true, n);
    IntoOvertime(s.(remaining := 0), n - s.remaining);
  }

  /** With the overtime box clear, a countdown run through zero chimes once, stops the BGM and
      the timer, and leaves 00:00; later ticks do not arrive. */
  lemma TimesUpWithoutOvertime(s: State, n: nat)
    requires Valid(s) && s.running && !s.overtime && n > s.remaining
    ensures RunTicks(s, false, n) ==
      Run(s.(remaining := 0, running := false, bgm := Halted(s.bgm)),
           [TimeUpSound(s.chime), BgmStop])
  {
    var k := s.remaining;
    RunTicksSplit(s, false, k, n - k);
    CountdownReachesZero(s, false, k);
    var zero := RunTicks(s, false, k).next;
    var t := Tick(zero, false);
    assert RunTicks(t.next, false, n - k - 1) == Run(t.next, []);
  }

  /** A five-second timer, reset and started: five ticks reach 00:00 still running; the sixth
      enters overtime at +00:01 with the box checked, and stops the timer at 00:00 without it. */
  lemma FiveSecondRun(s: State)
    requires Valid(s) && s.initial == 5
    ensures var started := StartPause(ResetToInitial(s).next).next;
            && started.running
            && RunTicks(started, true, 5).next.remaining == 0
            && RunTicks(started, true, 5).next.running && !RunTicks(started, true, 5).next.overtime
            && RunTicks(started, true, 5).out == []
            && RunTicks(started, true, 6).next.remaining == 1
            && RunTicks(started, true, 6).next.overtime && RunTicks(started, true, 6).next.running
            && RunTicks(started, true, 6).out == [TimeUpSound(s.chime), BgmStop]
            && !RunTicks(started, false, 6).next.running && RunTicks(started, false, 6).next.remaining == 0
  {
    ResetThenStart(s);
    var started := StartPause(ResetToInitial(s).next).next;
    CountdownReachesZero(started, true, 5);
    RunTicksSplit(started, true, 5, 1);
    var zero := RunTicks(started, true, 5).next;
    assert RunTicks(Tick(zero, true).next, true, 0) == Run(Tick(zero, true).next, []);
    TimesUpWithoutOvertime(started, 6);
  }

  /** Reset, then start: the timer runs from the full duration with the same chime. */
  lemma ResetThenStart(s: State)
    requires Valid(s) && s.initial > 0
    ensures var started := StartPause(ResetToInitial(s).next).next;
            && Valid(started) && started.running && !started.overtime
            && started.remaining == started.initial == s.initial && started.chime == s.chime
  {
    var reset := ResetToInitial(s).next;
    DurationChangesKeepValid(s, TimeInputs.Inputs(None, None), None);
    StartPauseKeepsValid(reset);
  }
}
