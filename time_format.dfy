/**
 * The MM:SS formatter of the session clock (`formatTime`), with the
 * JavaScript number semantics it relies on written out: `Math.floor`
 * division, the truncating `%`, `Number.prototype.toString` on integers
 * and `String.prototype.padStart`. `ParseTime` is its inverse on
 * non-negative inputs.
 */
module TimeFormat {
  import opened Options

  predicate IsDigit(c: char)
  {
    '0' <= c <= '9'
  }

  function DigitChar(d: nat): (c: char)
    requires d < 10
    ensures IsDigit(c) && (c as int) - ('0' as int) == d
  {
    ((('0' as int) + d) as char)
  }

  /** Decimal digits of `n`, most significant first, without leading zeros. */
  function NatToDecimal(n: nat): (r: string)
    ensures |r| >= 1 && forall i :: 0 <= i < |r| ==> IsDigit(r[i])
    ensures r[0] == '0' <==> n == 0
    decreases n
  {
    if n < 10 then [DigitChar(n)] else NatToDecimal(n / 10) + [DigitChar(n % 10)]
  }

  /** `String(i)` for an integer `i`: a minus sign and the digits of its magnitude. */
  function IntToString(i: int): (r: string)
    ensures |r| >= 1 && (r[0] == '-' <==> i < 0)
  {
    if i < 0 then
      "-" + NatToDecimal(-i)
    else
      NatToDecimal(i)
  }

  /** `s.padStart(width, fill)` for a one-character fill. */
  function PadStart(s: string, width: nat, fill: char): (r: string)
    ensures |r| == if |s| >= width then |s| else width
    ensures r[|r| - |s|..] == s
    ensures forall i :: 0 <= i < |r| - |s| ==> r[i] == fill
  {
    if |s| >= width then s else seq(width - |s|, _ => fill) + s
  }

  /** JavaScript's `a % b`: the sign of the result follows the dividend. */
  function JsRemainder(a: int, b: int): (r: int)
    requires b > 0
    ensures a >= 0 ==> 0 <= r < b
    ensures a < 0 ==> -b < r <= 0
    ensures a == TruncatedQuotient(a, b) * b + r
  {
    if a >= 0 then a % b else -((-a) % b)
  }

  /** Division rounded toward zero, the quotient that pairs with `%`. */
  function TruncatedQuotient(a: int, b: int): int
    requires b > 0
  {
    if a >= 0 then a / b else -((-a) / b)
  }

  /**
   * The two fields of `formatTime`: `Math.floor(t / 60)` and `t % 60`.
   * For a non-negative total they are the minutes and the seconds of it.
   */
  function SplitMinutes(totalSeconds: int): (r: (int, int))
    ensures totalSeconds >= 0 ==> r.0 >= 0 && 0 <= r.1 < 60 && r.0 * 60 + r.1 == totalSeconds
  {
    (totalSeconds / 60, JsRemainder(totalSeconds, 60))
  }

  /** `formatTime`; its shape and its inverse are the lemmas below. */
  function FormatTime(totalSeconds: int): string
  {
    var (mins, secs) := SplitMinutes(totalSeconds);
    PadStart(IntToString(mins), 2, '0') + ":" + PadStart(IntToString(secs), 2, '0')
  }

  predicate AllDigits(s: string)
  {
    forall i :: 0 <= i < |s| ==> IsDigit(s[i])
  }

  function DigitValue(c: char): (d: nat)
    requires IsDigit(c)
    ensures d < 10
  {
    (c as int) - ('0' as int)
  }

  /** The value of a string of decimal digits. */
  function DecimalValue(s: string): nat
    requires AllDigits(s)
  {
    if s == [] then 0 else DecimalValue(s[..|s| - 1]) * 10 + DigitValue(s[|s| - 1])
  }

  /**
   * Reads back an `MM:SS` string: at least two minute digits, a colon and
   * exactly two second digits below 60; anything else is `None`.
   */
  function ParseTime(t: string): Option<nat>
  {
    if |t| < 5 || t[|t| - 3] != ':' then None
    else
      var mm, ss := t[..|t| - 3], t[|t| - 2..];
      if !AllDigits(mm) || !AllDigits(ss) then None
      else if DecimalValue(ss) >= 60 then None
      else Some(DecimalValue(mm) * 60 + DecimalValue(ss))
  }

  lemma {:induction false} DecimalRoundTrip(n: nat)
    ensures DecimalValue(NatToDecimal(n)) == n
    decreases n
  {
    if n >= 10 {
      var r := NatToDecimal(n);
      assert r[..|r| - 1] == NatToDecimal(n / 10);
      DecimalRoundTrip(n / 10);
    }
  }

  lemma {:induction false} DecimalLength(n: nat)
    ensures n < 10 ==> |NatToDecimal(n)| == 1
    ensures 10 <= n < 100 ==> |NatToDecimal(n)| == 2
    ensures n >= 10 ==> |NatToDecimal(n)| >= 2
    decreases n
  {
    if n >= 10 {
      DecimalLength(n / 10);
    }
  }

  /** Leading zeros do not change the value of a digit string. */
  lemma {:induction false} LeadingZeros(k: nat, s: string)
    requires AllDigits(s)
    ensures AllDigits(seq(k, _ => '0') + s)
    ensures DecimalValue(seq(k, _ => '0') + s) == DecimalValue(s)
    decreases |s|
  {
    var z := seq(k, _ => '0');
    if s == [] {
      assert z + s == z;
      ZerosValue(k);
    } else {
      var t := z + s;
      assert t[..|t| - 1] == z + s[..|s| - 1];
      LeadingZeros(k, s[..|s| - 1]);
    }
  }

  lemma {:induction false} ZerosValue(k: nat)
    ensures AllDigits(seq(k, _ => '0'))
    ensures DecimalValue(seq(k, _ => '0')) == 0
    decreases k
  {
    if k > 0 {
      var z := seq(k, _ => '0');
      assert z[..k - 1] == seq(k - 1, _ => '0');
      ZerosValue(k - 1);
    }
  }

  /** A zero-padded decimal still reads back as the number. */
  lemma PaddedRoundTrip(n: nat)
    ensures AllDigits(PadStart(NatToDecimal(n), 2, '0'))
    ensures |PadStart(NatToDecimal(n), 2, '0')| >= 2
    ensures DecimalValue(PadStart(NatToDecimal(n), 2, '0')) == n
  {
    var d := NatToDecimal(n);
    DecimalRoundTrip(n);
    if |d| < 2 {
      LeadingZeros(2 - |d|, d);
    }
  }

  /** `MM:SS` splits back into its two fields around the colon. */
  lemma JoinFields(m: string, s: string)
    requires |s| == 2
    ensures var r := m + ":" + s;
      |r| == |m| + 3 && r[|r| - 3] == ':' && r[..|r| - 3] == m && r[|r| - 2..] == s
  {
  }

  /** On a non-negative total both fields are non-negative, so neither has a sign. */
  lemma FormatTimeFields(totalSeconds: int)
    requires totalSeconds >= 0
    ensures FormatTime(totalSeconds) ==
      PadStart(NatToDecimal(totalSeconds / 60), 2, '0') + ":" + PadStart(NatToDecimal(totalSeconds % 60), 2, '0')
  {
  }

  /**
   * For a non-negative total the output is a run of at least two minute
   * digits, a colon and exactly two second digits; below 100 minutes it is
   * exactly five characters long.
   */
  lemma FormatTimeShape(totalSeconds: int)
    requires totalSeconds >= 0
    ensures var r := FormatTime(totalSeconds);
      |r| >= 5 && r[|r| - 3] == ':' &&
      AllDigits(r[..|r| - 3]) && AllDigits(r[|r| - 2..]) &&
      (totalSeconds < 6000 ==> |r| == 5)
  {
    var mins, secs := totalSeconds / 60, totalSeconds % 60;
    var m, s := PadStart(NatToDecimal(mins), 2, '0'), PadStart(NatToDecimal(secs), 2, '0');
    PaddedRoundTrip(mins);
    PaddedRoundTrip(secs);
    DecimalLength(mins);
    DecimalLength(secs);
    FormatTimeFields(totalSeconds);
    JoinFields(m, s);
  }

  /** Parsing an `MM:SS` string built from two digit fields reads the fields back. */
  lemma ParseJoined(m: string, s: string, total: nat)
    requires AllDigits(m) && AllDigits(s) && |m| >= 2 && |s| == 2
    requires DecimalValue(s) < 60 && DecimalValue(m) * 60 + DecimalValue(s) == total
    ensures ParseTime(m + ":" + s) == Some(total)
  {
    JoinFields(m, s);
  }

  /** The two padded fields of a non-negative total read back as its minutes and seconds. */
  lemma FieldsReadBack(totalSeconds: int)
    requires totalSeconds >= 0
    ensures var m, s := PadStart(NatToDecimal(totalSeconds / 60), 2, '0'), PadStart(NatToDecimal(totalSeconds % 60), 2, '0');
      AllDigits(m) && AllDigits(s) && |m| >= 2 && |s| == 2 &&
      DecimalValue(s) < 60 && DecimalValue(m) * 60 + DecimalValue(s) == totalSeconds
  {
    var mins, secs := totalSeconds / 60, totalSeconds % 60;
    PaddedRoundTrip(mins);
    PaddedRoundTrip(secs);
    DecimalLength(secs);
    assert mins * 60 + secs == totalSeconds;
  }

  /** Formatting a non-negative total and reading it back gives the total again. */
  lemma FormatParseRoundTrip(totalSeconds: int)
    requires totalSeconds >= 0
    ensures ParseTime(FormatTime(totalSeconds)) == Some(totalSeconds)
  {
    var m, s := PadStart(NatToDecimal(totalSeconds / 60), 2, '0'), PadStart(NatToDecimal(totalSeconds % 60), 2, '0');
    FieldsReadBack(totalSeconds);
    ParseJoined(m, s, totalSeconds);
    FormatTimeFields(totalSeconds);
  }

  /**
   * A negative total, which the clock never produces, keeps the signs of
   * JavaScript's floor division and remainder: -1 shows as "-1:-1".
   */
  lemma NegativeTotalExample()
    ensures FormatTime(-1) == "-1:-1"
  {
    assert SplitMinutes(-1) == (-1, -1);
    assert NatToDecimal(1) == "1";
  }

}
