/**
 * Display helpers of the timer view (components/timer/timer.component.ts):
 * zero-padded numbers and the phase's label and emoji.
 */
module TimerView {
  import opened TimerModel
  import PomodoroEngine

  function Digit(d: int): (c: char)
    requires 0 <= d < 10
    ensures '0' <= c <= '9' && c as int - '0' as int == d
  {
    "0123456789"[d]
  }

  predicate IsDigits(s: string)
  {
    forall i :: 0 <= i < |s| ==> '0' <= s[i] <= '9'
  }

  /** The number a string of decimal digits denotes, most significant digit first. */
  function DigitsValue(s: string): nat
    requires IsDigits(s)
  {
    if s == [] then 0 else DigitsValue(s[..|s| - 1]) * 10 + (s[|s| - 1] as int - '0' as int)
  }

  /** The number a decimal numeral with an optional leading `-` denotes. */
  function DecimalValue(s: string): int
    requires s != [] && (s[0] == '-' ==> IsDigits(s[1..])) && (s[0] != '-' ==> IsDigits(s))
  {
    if s[0] == '-' then 0 - DigitsValue(s[1..]) else DigitsValue(s)
  }

  /** The decimal numeral of `n`: digits only, no leading zero, denoting `n`. */
  function NatToString(n: nat): (s: string)
    ensures |s| >= 1 && IsDigits(s)
    ensures DigitsValue(s) == n
    ensures |s| == 1 || s[0] != '0'
    ensures n < 10 ==> s == [Digit(n)]
    ensures 10 <= n < 100 ==> s == [Digit(n / 10), Digit(n % 10)]
  {
    if n < 10 then [Digit(n)]
    else
      var prefix := NatToString(n / 10);
      var s := prefix + [Digit(n % 10)];
      assert s[..|s| - 1] == prefix;
      s
  }

  /** Template-literal formatting of an integer (`${n}`): a `-` exactly for negatives, then the numeral of the magnitude. */
  function IntToString(n: int): (s: string)
    ensures s != [] && (s[0] == '-' <==> n < 0)
    ensures n < 0 ==> IsDigits(s[1..]) && DecimalValue(s) == n && (|s| == 2 || s[1] != '0')
    ensures n >= 0 ==> IsDigits(s) && DecimalValue(s) == n && s == NatToString(n)
  {
    if n < 0 then
      var s := "-" + NatToString(-n);
      assert s[1..] == NatToString(-n);
      s
    else NatToString(n)
  }

  /** `formatNumber`: a `0` before numbers below ten. */
  function FormatNumber(n: int): (s: string)
    ensures n < 10 ==> s == "0" + IntToString(n)
    ensures n >= 10 ==> s == IntToString(n)
    ensures 0 <= n < 100 ==> |s| == 2 && s == [Digit(n / 10), Digit(n % 10)]
  {
    if n < 10 then "0" + IntToString(n) else IntToString(n)
  }

  /** A leading zero does not change the number a digit string denotes. */
  lemma {:induction false} LeadingZeroKeepsValue(t: string)
    requires IsDigits(t)
    ensures IsDigits("0" + t) && DigitsValue("0" + t) == DigitsValue(t)
  {
    if t != [] {
      var z := "0" + t;
      assert z[..|z| - 1] == "0" + t[..|t| - 1];
      LeadingZeroKeepsValue(t[..|t| - 1]);
    }
  }

  /** A padded non-negative number still reads back as itself. */
  lemma FormatNumberReadsBack(n: int)
    requires n >= 0
    ensures IsDigits(FormatNumber(n)) && DigitsValue(FormatNumber(n)) == n
  {
    if n < 10 {
      LeadingZeroKeepsValue(IntToString(n));
    }
  }

  /** The seconds part of any non-negative remaining time renders as exactly two digits. */
  lemma SecondsRenderAsTwoDigits(timeRemaining: int)
    requires timeRemaining >= 0
    ensures |FormatNumber(PomodoroEngine.Seconds(timeRemaining))| == 2
  {
    PomodoroEngine.MinutesSecondsSplit(timeRemaining);
  }

  /** `modeText` */
  function ModeText(mode: TimerMode): (text: string)
    ensures text == ModeLabel(mode)
  {
    match mode
    case Work => "Tempo de Foco"
    case ShortBreak => "Pausa Curta"
    case LongBreak => "Pausa Longa"
  }

  /** `modeEmoji` */
  function ModeEmoji(mode: TimerMode): (emoji: string)
    ensures emoji == ModeEmojiInfo(mode)
  {
    match mode
    case Work => "\U{1F345}"
    case ShortBreak => "\U{2615}"
    case LongBreak => "\U{1F334}"
  }

  /** Different phases never share a label or an emoji. */
  lemma ModeDisplayInjective(a: TimerMode, b: TimerMode)
    requires a != b
    ensures ModeText(a) != ModeText(b)
    ensures ModeEmoji(a) != ModeEmoji(b)
  {
    assert ModeText(Work)[0] == 'T' && ModeText(ShortBreak)[6] == 'C' && ModeText(LongBreak)[6] == 'L';
  }
}
