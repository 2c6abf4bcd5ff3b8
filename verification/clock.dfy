/**
 * The recording clock of the seal view (`formatTime` in
 * `features/sender/Sender.tsx`): elapsed whole seconds shown as `MM:SS`,
 * where each field is `n.toString().padStart(2, '0')` of the minutes
 * `Math.floor(seconds / 60)` and the seconds `seconds % 60`. The elapsed time
 * is a count of ticks, so it is a natural number and JavaScript's floor and
 * remainder agree with Dafny's `/` and `%` on it.
 */
module Clock {
  import opened Common

  predicate IsDigit(c: char) {
    '0' <= c <= '9'
  }

  predicate AllDigits(s: string) {
    forall i :: 0 <= i < |s| ==> IsDigit(s[i])
  }

  function DigitChar(d: nat): (c: char)
    requires d < 10
    ensures IsDigit(c)
  {
    ('0' as int + d) as char
  }

  function DigitValue(c: char): (d: nat)
    requires IsDigit(c)
    ensures d < 10 && DigitChar(d) == c
  {
    c as int - '0' as int
  }

  /** `n.toString()` for a natural number: its decimal digits, no leading zero. */
  function DecimalString(n: nat): (s: string)
    ensures 1 <= |s| && AllDigits(s)
  {
    if n < 10 then [DigitChar(n)] else DecimalString(n / 10) + [DigitChar(n % 10)]
  }

  /** `s.padStart(width, fill)`. */
  function PadStart(s: string, width: nat, fill: char): (r: string)
    ensures |r| == if |s| >= width then |s| else width
  {
    if |s| >= width then s else seq(width - |s|, _ => fill) + s
  }

  /** One field of the clock: `n.toString().padStart(2, '0')`. */
  function TwoDigits(n: nat): string {
    PadStart(DecimalString(n), 2, '0')
  }

  /**
   * `formatTime(seconds)`: always a well-formed clock (digits, a colon, two
   * digits), and below 100 minutes exactly `MM:SS`.
   */
  function FormatTime(seconds: nat): (t: string)
    ensures ParseClock(t).Some?
    ensures seconds < 6000 ==> |t| == 5 && t[2] == ':'
  {
    TwoDigitsReadBack(seconds / 60);
    TwoDigitsReadBack(seconds % 60);
    var minutes := TwoDigits(seconds / 60);
    var secs := TwoDigits(seconds % 60);
    var t := minutes + ":" + secs;
    assert t[..|t| - 3] == minutes && t[|t| - 2..] == secs;
    t
  }

  /** Reads a run of decimal digits, leading zeros allowed. */
  function ParseDecimal(s: string): nat
    requires AllDigits(s)
  {
    if |s| == 0 then 0 else ParseDecimal(s[..|s| - 1]) * 10 + DigitValue(s[|s| - 1])
  }

  /** The two fields a clock string reads back as. */
  datatype ClockFields = ClockFields(minutes: nat, seconds: nat)

  /**
   * Reads a clock string: at least two minute digits, a colon, and exactly
   * two second digits; `None` for anything else.
   */
  function ParseClock(t: string): Option<ClockFields> {
    if |t| >= 5 && t[|t| - 3] == ':' && AllDigits(t[..|t| - 3]) && AllDigits(t[|t| - 2..]) then
      Some(ClockFields(ParseDecimal(t[..|t| - 3]), ParseDecimal(t[|t| - 2..])))
    else
      None
  }

  /** The decimal string of a number reads back as that number. */
  lemma {:induction false} ParseDecimalString(n: nat)
    ensures ParseDecimal(DecimalString(n)) == n
  {
    if n >= 10 {
      var s := DecimalString(n);
      assert s[..|s| - 1] == DecimalString(n / 10);
      ParseDecimalString(n / 10);
    }
  }

  /** One digit for 0..9, two for 10..99. */
  lemma {:induction false} DecimalStringLength(n: nat)
    ensures n < 10 <==> |DecimalString(n)| == 1
    ensures 10 <= n < 100 ==> |DecimalString(n)| == 2
  {
    if n >= 10 {
      DecimalStringLength(n / 10);
    }
  }

  /** A padded field reads back as the number it shows. */
  lemma TwoDigitsReadBack(n: nat)
    ensures AllDigits(TwoDigits(n)) && |TwoDigits(n)| >= 2
    ensures ParseDecimal(TwoDigits(n)) == n
    ensures n < 100 ==> |TwoDigits(n)| == 2
  {
    DecimalStringLength(n);
    ParseDecimalString(n);
    var d := DecimalString(n);
    if n < 10 {
      var t := TwoDigits(n);
      assert t == ['0'] + d;
      assert t[..1] == ['0'];
    }
  }

  /**
   * Every formatted clock parses back into `floor(seconds / 60)` minutes and
   * `seconds % 60` seconds, so `minutes * 60 + seconds` is the elapsed time
   * and the seconds field is below 60.
   */
  lemma {:induction false} FormatTimeRoundTrip(seconds: nat)
    ensures ParseClock(FormatTime(seconds)) == Some(ClockFields(seconds / 60, seconds % 60))
    ensures var f := ParseClock(FormatTime(seconds)).value;
      f.minutes * 60 + f.seconds == seconds && f.seconds < 60
  {
    var m := TwoDigits(seconds / 60);
    var s := TwoDigits(seconds % 60);
    TwoDigitsReadBack(seconds / 60);
    TwoDigitsReadBack(seconds % 60);
    var t := FormatTime(seconds);
    assert t == m + ":" + s;
    assert t[..|t| - 3] == m;
    assert t[|t| - 2..] == s;
  }

  /** A fresh recording shows `00:00`. */
  lemma FormatTimeZero()
    ensures FormatTime(0) == "00:00"
  {
  }
}
