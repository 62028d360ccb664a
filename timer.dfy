/** The countdown shown during a session: the remaining whole seconds (lines 642-643)
    and `formatTimer` (lines 628-632), with a parser that inverts it. */
module Timer {
  import opened Wrappers

  /** `Math.ceil(Math.max(0, gameDuration - elapsed) / 1000)` on integer milliseconds. */
  function RemainingSeconds(gameDuration: int, elapsed: int): (sec: nat)
    ensures var ms := if gameDuration - elapsed > 0 then gameDuration - elapsed else 0;
            (sec == 0 <==> ms == 0) && (sec - 1) * 1000 < ms <= sec * 1000
  {
    var remainingMs := if 0 >= gameDuration - elapsed then 0 else gameDuration - elapsed;
    (remainingMs + 999) / 1000
  }

  predicate IsDigit(c: char) { '0' <= c <= '9' }

  predicate AllDigits(s: string) { forall i :: 0 <= i < |s| ==> IsDigit(s[i]) }

  function DigitChar(d: nat): (c: char)
    requires d < 10
    ensures IsDigit(c) && (c as int) - ('0' as int) == d
  {
    ('0' as int + d) as char
  }

  function DigitValue(c: char): nat
    requires IsDigit(c)
  {
    (c as int) - ('0' as int)
  }

  /** `String(n)` for a natural number: its decimal digits, without leading zeros. */
  function DecimalString(n: nat): (s: string)
    ensures 1 <= |s|
    ensures AllDigits(s)
    ensures |s| > 1 ==> s[0] != '0'
    ensures n < 10 <==> |s| == 1
  {
    if n < 10 then [DigitChar(n)] else DecimalString(n / 10) + [DigitChar(n % 10)]
  }

  /** The value of a string of decimal digits. */
  function ParseDecimal(s: string): nat
    requires AllDigits(s)
  {
    if s == [] then 0 else ParseDecimal(s[..|s| - 1]) * 10 + DigitValue(s[|s| - 1])
  }

  /** Reading back the decimal string gives the number. */
  lemma {:induction false} ParseDecimalString(n: nat)
    ensures ParseDecimal(DecimalString(n)) == n
  {
    var s := DecimalString(n);
    if n >= 10 {
      ParseDecimalString(n / 10);
      assert s[..|s| - 1] == DecimalString(n / 10);
    }
  }

  /** `String(s).padStart(2, '0')` */
  function PadTwo(s: string): (r: string)
    ensures |r| == if |s| < 2 then 2 else |s|
  {
    if |s| == 0 then "00" else if |s| == 1 then "0" + s else s
  }

  /** `formatTimer(seconds)`: `m:ss` with zero-padded seconds once a minute remains,
      otherwise just the seconds. */
  function FormatTimer(seconds: nat): (r: string)
    ensures (':' in r) <==> seconds >= 60
    ensures seconds >= 60 ==> |r| >= 4 && r[|r| - 3] == ':'
    ensures forall i :: 0 <= i < |r| ==> IsDigit(r[i]) || r[i] == ':'
    ensures seconds < 60 ==> r == DecimalString(seconds)
    ensures seconds >= 60 ==>
              && r[..|r| - 3] == DecimalString(seconds / 60)
              && AllDigits(r[|r| - 2..]) && ParseDecimal(r[|r| - 2..]) == seconds % 60
  {
    var m := seconds / 60;
    var s := seconds % 60;
    if m > 0 then
      var ss := PadTwo(DecimalString(s));
      PadTwoValue(DecimalString(s));
      ParseDecimalString(s);
      var t := DecimalString(m) + ":" + ss;
      assert t[..|t| - 3] == DecimalString(m) && t[|t| - 2..] == ss;
      t
    else DecimalString(s)
  }

  /** Reads a displayed timer back as whole seconds: `m:ss` (a colon before the last two
      digits) or plain seconds. */
  function ParseTimer(t: string): Option<nat>
  {
    if |t| >= 4 && t[|t| - 3] == ':' && AllDigits(t[..|t| - 3]) && AllDigits(t[|t| - 2..]) then
      Some(ParseDecimal(t[..|t| - 3]) * 60 + ParseDecimal(t[|t| - 2..]))
    else if AllDigits(t) then
      Some(ParseDecimal(t))
    else
      None
  }

  /** The display determines the number of seconds it shows. */
  lemma FormatTimerRoundTrip(seconds: nat)
    ensures ParseTimer(FormatTimer(seconds)) == Some(seconds)
  {
    var m, s := seconds / 60, seconds % 60;
    ParseDecimalString(s);
    if m > 0 {
      ParseDecimalString(m);
      PadTwoValue(DecimalString(s));
      ParseColonForm(DecimalString(m), PadTwo(DecimalString(s)));
    }
  }

  /** Padding with a leading zero keeps the value. */
  lemma PadTwoValue(d: string)
    requires AllDigits(d)
    ensures AllDigits(PadTwo(d))
    ensures ParseDecimal(PadTwo(d)) == ParseDecimal(d)
  {
    if |d| == 1 {
      assert PadTwo(d)[..1] == "0";
    } else if |d| == 0 {
      assert "00"[..1] == "0";
    }
  }

  /** Minutes, then two digits of seconds, are read separately. */
  lemma ParseColonForm(m: string, s: string)
    requires AllDigits(m) && AllDigits(s)
    requires |m| >= 1 && |s| == 2
    ensures ParseTimer(m + ":" + s) == Some(ParseDecimal(m) * 60 + ParseDecimal(s))
  {
    var t := m + ":" + s;
    assert t[..|t| - 3] == m;
    assert t[|t| - 2..] == s;
  }
}
