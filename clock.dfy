/**
 * The elapsed-time display: a tick counter rendered as minutes and seconds,
 * each padded to two digits and joined by a colon ("mm:ss"). Minutes are not
 * capped, so from 100 minutes on the minutes field has three or more digits.
 */
module Clock {
  import opened Wrappers

  const SECONDS_PER_MINUTE: int := 60

  predicate IsDigit(c: char)
  {
    '0' <= c <= '9'
  }

  predicate IsDigits(s: string)
  {
    forall i :: 0 <= i < |s| ==> IsDigit(s[i])
  }

  function DigitChar(d: nat): (c: char)
    requires d < 10
    ensures IsDigit(c)
  {
    (48 + d) as char
  }

  function DigitValue(c: char): (d: nat)
    requires IsDigit(c)
    ensures d < 10
  {
    c as int - 48
  }

  /** The decimal numeral JavaScript writes for a non-negative integer. */
  function Decimal(n: nat): (s: string)
    ensures |s| >= 1 && IsDigits(s)
  {
    if n < 10 then [DigitChar(n)] else Decimal(n / 10) + [DigitChar(n % 10)]
  }

  /** The number a string of digits denotes (leading zeros allowed). */
  function ValueOf(s: string): nat
    requires IsDigits(s)
  {
    if |s| == 0 then 0 else ValueOf(s[..|s| - 1]) * 10 + DigitValue(s[|s| - 1])
  }

  /** Decimal is a canonical numeral: it reads back as n and has no leading zero. */
  lemma {:induction false} DecimalRoundTrip(n: nat)
    ensures ValueOf(Decimal(n)) == n
    ensures |Decimal(n)| == 1 || Decimal(n)[0] != '0'
  {
    var s := Decimal(n);
    if n >= 10 {
      DecimalRoundTrip(n / 10);
      assert s[..|s| - 1] == Decimal(n / 10);
    }
  }

  /** The width of the numeral: one digit below 10, two below 100, three or more after. */
  lemma {:induction false} DecimalLength(n: nat)
    ensures n < 10 <==> |Decimal(n)| == 1
    ensures 10 <= n < 100 <==> |Decimal(n)| == 2
    ensures n >= 100 <==> |Decimal(n)| >= 3
  {
    if n >= 10 {
      DecimalLength(n / 10);
    }
  }

  /** A field of the display: a leading '0' is added below 10. */
  function Pad2(n: nat): string
  {
    (if n < 10 then "0" else "") + Decimal(n)
  }

  lemma Pad2Value(n: nat)
    ensures IsDigits(Pad2(n)) && ValueOf(Pad2(n)) == n
    ensures |Pad2(n)| >= 2
    ensures n < 100 <==> |Pad2(n)| == 2
    ensures n >= 10 ==> Pad2(n)[0] != '0'
  {
    DecimalRoundTrip(n);
    DecimalLength(n);
    if n < 10 {
      var s := Pad2(n);
      assert s == ['0', DigitChar(n)];
      assert s[..1] == ['0'] && ValueOf(['0']) == 0;
      assert DigitValue(DigitChar(n)) == n;
      assert ValueOf(s) == ValueOf(s[..1]) * 10 + DigitValue(s[1]);
    } else {
      assert Pad2(n) == Decimal(n);
    }
  }

  /** The text shown for `gameTime` elapsed ticks. */
  function FormatTime(gameTime: nat): string
  {
    Pad2(gameTime / SECONDS_PER_MINUTE) + ":" + Pad2(gameTime % SECONDS_PER_MINUTE)
  }

  /**
   * Reads an "m...m:ss" display, whose seconds field is below 60, back into a
   * tick count; the partner of FormatTime.
   */
  function ParseTime(s: string): Option<nat>
  {
    if && |s| >= 5 && s[|s| - 3] == ':' && IsDigits(s[..|s| - 3]) && IsDigits(s[|s| - 2..])
       && ValueOf(s[|s| - 2..]) < SECONDS_PER_MINUTE
    then
      Some(ValueOf(s[..|s| - 3]) * SECONDS_PER_MINUTE + ValueOf(s[|s| - 2..]))
    else
      None
  }

  /** No two tick counts share a display: the display reads back as the count. */
  lemma FormatTimeRoundTrip(gameTime: nat)
    ensures ParseTime(FormatTime(gameTime)) == Some(gameTime)
  {
    var m, sec := gameTime / SECONDS_PER_MINUTE, gameTime % SECONDS_PER_MINUTE;
    Pad2Value(m);
    Pad2Value(sec);
    var s := FormatTime(gameTime);
    assert s[..|s| - 3] == Pad2(m);
    assert s[|s| - 2..] == Pad2(sec);
  }

  /** The display is exactly five characters "mm:ss" iff fewer than 100 minutes have passed. */
  lemma FormatTimeWidth(gameTime: nat)
    ensures |FormatTime(gameTime)| == 5 <==> gameTime < 100 * SECONDS_PER_MINUTE
    ensures |FormatTime(gameTime)| >= 5
    ensures gameTime < 100 * SECONDS_PER_MINUTE ==> FormatTime(gameTime)[2] == ':'
  {
    Pad2Value(gameTime / SECONDS_PER_MINUTE);
    Pad2Value(gameTime % SECONDS_PER_MINUTE);
  }
}
