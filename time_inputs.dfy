/**
  The minutes and seconds text boxes and the four stepper buttons beside them
  (MainWindow.UpdateMinutes, MainWindow.UpdateSeconds). A box is modelled by what int.TryParse
  makes of its text: a 32-bit int, or None when the text does not parse. Writing a value back
  with ToString("D2") and parsing it again gives the same int, so a box that a handler wrote
  holds exactly the value written. C#'s int addition is unchecked: it wraps around.
*/
module TimeInputs {
  import opened Wrappers

  const IntMin: int := -0x8000_0000
  const IntMax: int := 0x7fff_ffff

  type Int32 = x: int | -0x8000_0000 <= x <= 0x7fff_ffff

  /** Two's-complement wrap-around of an unchecked 32-bit addition. */
  function Wrap(x: int): (r: Int32)
    ensures (x - r) % 0x1_0000_0000 == 0
    ensures IntMin <= x <= IntMax ==> r == x
  {
    (x - IntMin) % 0x1_0000_0000 + IntMin
  }

  datatype Inputs = Inputs(minutes: Option<Int32>, seconds: Option<Int32>)

  /** The range SetTime accepts: minutes at least 0, seconds from 0 to 59. */
  predicate InRange(b: Inputs)
  {
    b.minutes.Some? && b.seconds.Some? && b.minutes.value >= 0 && 0 <= b.seconds.value < 60
  }

  /** The duration a box pair in range stands for, in seconds (new TimeSpan(0, minutes, seconds)). */
  function Duration(b: Inputs): (d: nat)
    requires InRange(b)
    ensures d / 60 == b.minutes.value && d % 60 == b.seconds.value
  {
    60 * b.minutes.value + b.seconds.value
  }

  /** Every duration whose minutes fit an Int32 comes from exactly one box pair in range:
      its whole minutes and its remaining seconds. */
  lemma DurationOnto(d: nat, b: Inputs)
    requires d / 60 <= IntMax
    ensures InRange(Inputs(Some(d / 60), Some(d % 60)))
    ensures Duration(Inputs(Some(d / 60), Some(d % 60))) == d
    ensures InRange(b) && Duration(b) == d ==> b == Inputs(Some(d / 60), Some(d % 60))
  {
  }

  /** UpdateMinutes(change): a parsed minutes box moves by change and is clamped at 0. */
  function UpdateMinutes(b: Inputs, change: Int32): (r: Inputs)
    ensures r.seconds == b.seconds
    ensures b.minutes.None? ==> r == b
    ensures b.minutes.Some? ==> r.minutes.Some? && r.minutes.value >= 0
    ensures b.minutes.Some? && 0 <= b.minutes.value + change <= IntMax ==>
      r.minutes == Some(b.minutes.value + change)
    ensures b.minutes.Some? && IntMin <= b.minutes.value + change < 0 ==> r.minutes == Some(0)
  {
    match b.minutes
    case None => b
    case Some(m) =>
      var moved := Wrap(m + change);
      b.(minutes := Some(if moved < 0 then 0 else moved))
  }

  /** UpdateSeconds(change): a parsed seconds box moves by change; at 60 or more it carries one
      minute up and becomes 0, below 0 it borrows one minute and becomes 59. */
  function UpdateSeconds(b: Inputs, change: Int32): (r: Inputs)
    ensures b.seconds.None? ==> r == b
    ensures b.seconds.Some? ==> r.seconds.Some? && 0 <= r.seconds.value < 60
    ensures b.seconds.Some? && 0 <= b.seconds.value + change < 60 ==>
      r == b.(seconds := Some(b.seconds.value + change))
    ensures b.seconds.Some? && 60 <= b.seconds.value + change <= IntMax ==>
      r == UpdateMinutes(b, 1).(seconds := Some(0))
    ensures b.seconds.Some? && IntMin <= b.seconds.value + change < 0 ==>
      r == UpdateMinutes(b, -1).(seconds := Some(59))
  {
    match b.seconds
    case None => b
    case Some(sec) =>
      var moved := Wrap(sec + change);
      if moved >= 60 then UpdateMinutes(b, 1).(seconds := Some(0))
      else if moved < 0 then UpdateMinutes(b, -1).(seconds := Some(59))
      else b.(seconds := Some(moved))
  }

  /** On boxes in range, the seconds "+" button adds one second to the duration. */
  lemma SecondsUpAddsOne(b: Inputs)
    requires InRange(b) && b.minutes.value < IntMax
    ensures InRange(UpdateSeconds(b, 1))
    ensures Duration(UpdateSeconds(b, 1)) == Duration(b) + 1
  {
  }

  /** On boxes in range above 00:00, the seconds "-" button takes one second off the duration. */
  lemma SecondsDownSubtractsOne(b: Inputs)
    requires InRange(b) && Duration(b) > 0
    ensures InRange(UpdateSeconds(b, -1))
    ensures Duration(UpdateSeconds(b, -1)) == Duration(b) - 1
  {
  }

  /** At 00:00 the seconds "-" button gives 00:59: the minutes are clamped, the seconds are not. */
  lemma SecondsDownAtZero()
    ensures UpdateSeconds(Inputs(Some(0), Some(0)), -1) == Inputs(Some(0), Some(59))
  {
  }

  /** "+" then "-" on the seconds restores boxes in range. */
  lemma SecondsUpThenDown(b: Inputs)
    requires InRange(b) && b.minutes.value < IntMax
    ensures UpdateSeconds(UpdateSeconds(b, 1), -1) == b
  {
  }

  /** No stepper button takes boxes in range out of range, so SetTime still accepts them,
      even at the 32-bit edge, where a minutes overflow wraps negative and is clamped to 0. */
  lemma StepsStayInRange(b: Inputs, change: Int32)
    requires InRange(b)
    requires change == 1 || change == -1
    ensures InRange(UpdateMinutes(b, change))
    ensures InRange(UpdateSeconds(b, change))
  {
  }
}
