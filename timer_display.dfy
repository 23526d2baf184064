/**
  The timer text (MainWindow.UpdateTimerDisplay): TimeSpan.ToString(@"mm\:ss") of the remaining
  seconds, with a "+" in front while in overtime. The "mm" specifier shows the minutes
  COMPONENT (0 to 59), so whole hours do not appear in the text.
*/
module TimerDisplay {
  import opened Wrappers

  function Digit(d: nat): (c: char)
    requires d < 10
    ensures '0' <= c <= '9'
    ensures c as int - '0' as int == d
  {
    (('0' as int) + d) as char
  }

  /** The "D2"-style two-digit field of a component below 100. */
  function TwoDigits(n: nat): (r: string)
    requires n < 100
    ensures |r| == 2 && '0' <= r[0] <= '9' && '0' <= r[1] <= '9'
    ensures 10 * (r[0] as int - '0' as int) + (r[1] as int - '0' as int) == n
  {
    [Digit(n / 10), Digit(n % 10)]
  }

  /** mm:ss of a non-negative number of seconds. */
  function Body(total: nat): (r: string)
    ensures |r| == 5 && r[2] == ':'
  {
    TwoDigits((total / 60) % 60) + ":" + TwoDigits(total % 60)
  }

  /** The text UpdateTimerDisplay writes. */
  function Format(total: nat, overtime: bool): (r: string)
    ensures |r| == if overtime then 6 else 5
    ensures r[0] == '+' <==> overtime
    ensures r[|r| - 3] == ':'
  {
    if overtime then "+" + Body(total) else Body(total)
  }

  /** The text of the default five minutes. */
  lemma FormatDefault()
    ensures Format(300, false) == "05:00"
  {
    assert (300 / 60) % 60 == 5 && 300 % 60 == 0;
  }

  /** The value of a two-digit field, or None when it is not two decimal digits. */
  function ReadTwoDigits(t: string): Option<nat>
  {
    if |t| == 2 && '0' <= t[0] <= '9' && '0' <= t[1] <= '9'
    then Some(10 * (t[0] as int - '0' as int) + (t[1] as int - '0' as int))
    else None
  }

  /** Reads a timer text back: the overtime sign and the seconds within the hour. */
  function ReadDisplay(t: string): Option<(bool, nat)>
  {
    var overtime := |t| > 0 && t[0] == '+';
    var body := if overtime then t[1..] else t;
    if |body| != 5 || body[2] != ':' then None
    else
      match (ReadTwoDigits(body[..2]), ReadTwoDigits(body[3..]))
      case (Some(mm), Some(ss)) => if mm < 60 && ss < 60 then Some((overtime, 60 * mm + ss)) else None
      case _ => None
  }

  lemma {:induction false} WithinHour(total: nat)
    ensures 60 * ((total / 60) % 60) + total % 60 == total % 3600
  {
    var h, m, sec := total / 3600, (total / 60) % 60, total % 60;
    assert total / 60 == 60 * h + m by {
      assert total == 60 * (total / 60) + sec;
      assert total / 60 == 60 * ((total / 60) / 60) + m;
      assert (total / 60) / 60 == total / 3600;
    }
    assert total == 3600 * h + (60 * m + sec);
    assert 0 <= 60 * m + sec < 3600;
  }

  /** The text determines the overtime flag and the remaining seconds up to whole hours. */
  lemma {:induction false} FormatRoundTrip(total: nat, overtime: bool)
    ensures ReadDisplay(Format(total, overtime)) == Some((overtime, total % 3600))
  {
    var t := Format(total, overtime);
    var body := if overtime then t[1..] else t;
    assert body == Body(total);
    assert body[..2] == TwoDigits((total / 60) % 60);
    assert body[3..] == TwoDigits(total % 60);
    WithinHour(total);
  }

  /** Division by 60 after adding whole minutes. */
  lemma DivMod60(q: nat, r: nat)
    ensures (60 * q + r) / 60 == q + r / 60 && (60 * q + r) % 60 == r % 60
  {
    assert 60 * q + r == 60 * (q + r / 60) + r % 60;
  }

  /** Hours are dropped: a value and the same value minus whole hours show the same text. */
  lemma {:induction false} FormatDropsHours(total: nat, overtime: bool)
    ensures Format(total, overtime) == Format(total % 3600, overtime)
  {
    var h, r := total / 3600, total % 3600;
    assert total == 60 * (60 * h) + r;
    DivMod60(60 * h, r);
    DivMod60(h, r / 60);
    assert Body(total) == Body(r);
  }

  /** Equal two-digit fields hold equal values. */
  lemma TwoDigitsInjective(m: nat, n: nat)
    requires m < 100 && n < 100 && TwoDigits(m) == TwoDigits(n)
    ensures m == n
  {
  }

  lemma BodyFields(total: nat)
    ensures Body(total)[..2] == TwoDigits((total / 60) % 60)
    ensures Body(total)[3..] == TwoDigits(total % 60)
  {
  }

  /** Within one hour distinct values give distinct texts. */
  lemma FormatInjective(a: nat, b: nat, overtime: bool)
    requires a < 3600 && b < 3600
    requires Format(a, overtime) == Format(b, overtime)
    ensures a == b
  {
    assert Body(a) == Body(b) by {
      if overtime {
        assert Body(a) == Format(a, overtime)[1..] && Body(b) == Format(b, overtime)[1..];
      }
    }
    BodyFields(a);
    BodyFields(b);
    TwoDigitsInjective((a / 60) % 60, (b / 60) % 60);
    TwoDigitsInjective(a % 60, b % 60);
    SameFields(a, b);
  }

  /** Within one hour the two fields determine the value. */
  lemma SameFields(a: nat, b: nat)
    requires a < 3600 && b < 3600
    requires (a / 60) % 60 == (b / 60) % 60 && a % 60 == b % 60
    ensures a == b
  {
    WithinHour(a);
    WithinHour(b);
  }
}
