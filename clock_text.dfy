/**
 * Decimal digits and the "MM:SS" clock text shared by the three formatters
 * of the repository (timer-core.js `formatMs`, app.js `formatTime` and the
 * Python `TimerService.format_time`). Each of them renders minutes and
 * seconds as non-negative integers zero-padded to at least two digits.
 * The parser `ParseClock` is the partner that the formatters are proved
 * against: it reads the clock text back as a number of seconds.
 */
module ClockText {
  import opened Wrappers

  predicate IsDigits(s: string) {
    forall i :: 0 <= i < |s| ==> '0' <= s[i] <= '9'
  }

  /** The character of the decimal digit `d`. */
  function DigitChar(d: nat): (c: char)
    requires d < 10
    ensures '0' <= c <= '9' && c as int - '0' as int == d
  {
    ('0' as int + d) as char
  }

  /** Decimal value of a sequence of digit characters, most significant first. */
  function ParseDecimal(s: string): nat
    requires IsDigits(s)
  {
    if s == [] then 0
    else ParseDecimal(s[..|s| - 1]) * 10 + (s[|s| - 1] as int - '0' as int)
  }

  /**
   * The shortest decimal text of `n`: what JavaScript's `toString()` and
   * Python's `str` produce for a non-negative integer.
   */
  function Decimal(n: nat): (s: string)
    ensures |s| >= 1
    ensures |s| == 1 <==> n < 10
    ensures n < 100 ==> |s| <= 2
  {
    if n < 10 then [DigitChar(n)] else Decimal(n / 10) + [DigitChar(n % 10)]
  }

  /** The decimal text is made of digits and reads back as the number. */
  lemma {:induction false} DecimalRoundTrip(n: nat)
    ensures IsDigits(Decimal(n)) && ParseDecimal(Decimal(n)) == n
  {
    if n >= 10 {
      DecimalRoundTrip(n / 10);
      var s := Decimal(n);
      assert s[..|s| - 1] == Decimal(n / 10);
    }
  }

  /**
   * Zero-padding to two digits: JavaScript's `toString().padStart(2, '0')`
   * and Python's `02d` format on a non-negative integer.
   */
  function Pad2(n: nat): (s: string)
    ensures |s| >= 2
    ensures n < 100 ==> |s| == 2
  {
    var d := Decimal(n);
    if |d| < 2 then ['0'] + d else d
  }

  /** The padded text is made of digits and reads back as the number: a leading zero adds nothing. */
  lemma Pad2RoundTrip(n: nat)
    ensures IsDigits(Pad2(n)) && ParseDecimal(Pad2(n)) == n
  {
    DecimalRoundTrip(n);
    var d := Decimal(n);
    if |d| < 2 {
      var s := ['0'] + d;
      assert s[..1] == ['0'] && s[..|s| - 1] == ['0'];
    }
  }

  /** Below 100, the padded text is the tens digit followed by the units digit. */
  lemma Pad2Digits(n: nat)
    requires n < 100
    ensures Pad2(n) == [DigitChar(n / 10), DigitChar(n % 10)]
  {
    if n >= 10 {
      assert Decimal(n) == Decimal(n / 10) + [DigitChar(n % 10)];
    }
  }

  /** `MM:SS` for a minute count and a second count. */
  function Clock(minutes: nat, seconds: nat): string {
    Pad2(minutes) + ":" + Pad2(seconds)
  }

  /** `MM:SS` for a number of seconds: minutes are `total / 60`, seconds `total % 60`. */
  function FormatSeconds(total: nat): string {
    Clock(total / 60, total % 60)
  }

  /**
   * Reads a clock text back: digits, a colon, then exactly two digits
   * below 60. Gives the number of seconds it denotes.
   */
  function ParseClock(t: string): Option<nat> {
    if |t| >= 5 && t[|t| - 3] == ':' && IsDigits(t[..|t| - 3]) && IsDigits(t[|t| - 2..])
       && ParseDecimal(t[|t| - 2..]) < 60
    then Some(ParseDecimal(t[..|t| - 3]) * 60 + ParseDecimal(t[|t| - 2..]))
    else None
  }

  /** A clock text built from minutes and seconds below 60 reads back as their total. */
  lemma {:induction false} ClockRoundTrip(minutes: nat, seconds: nat)
    requires seconds < 60
    ensures ParseClock(Clock(minutes, seconds)) == Some(minutes * 60 + seconds)
    ensures |Clock(minutes, seconds)| >= 5
  {
    Pad2RoundTrip(minutes);
    Pad2RoundTrip(seconds);
    ParseJoined(Pad2(minutes), Pad2(seconds));
  }

  /** Digits, a colon and two digits below 60 parse as minutes times 60 plus seconds. */
  lemma {:induction false} ParseJoined(m: string, s: string)
    requires IsDigits(m) && |m| >= 2 && IsDigits(s) && |s| == 2 && ParseDecimal(s) < 60
    ensures ParseClock(m + ":" + s) == Some(ParseDecimal(m) * 60 + ParseDecimal(s))
  {
    var t := m + ":" + s;
    var head, tail := t[..|t| - 3], t[|t| - 2..];
    assert head == m && t[|t| - 3] == ':' && tail == s;
    assert ParseClock(t) == Some(ParseDecimal(head) * 60 + ParseDecimal(tail));
  }

  /** Every formatted clock text reads back as the seconds it was made from. */
  lemma FormatSecondsRoundTrip(total: nat)
    ensures ParseClock(FormatSeconds(total)) == Some(total)
    ensures |FormatSeconds(total)| >= 5
  {
    var q, r := total / 60, total % 60;
    assert q * 60 + r == total;
    ClockRoundTrip(q, r);
  }

  /** Two-digit minutes and seconds render as exactly those four digits around the colon. */
  lemma {:induction false} ClockOfDigits(m1: nat, m0: nat, s1: nat, s0: nat)
    requires m1 < 10 && m0 < 10 && s1 < 6 && s0 < 10
    ensures Clock(10 * m1 + m0, 10 * s1 + s0) == [DigitChar(m1), DigitChar(m0), ':', DigitChar(s1), DigitChar(s0)]
  {
    var minutes, seconds := 10 * m1 + m0, 10 * s1 + s0;
    assert minutes / 10 == m1 && minutes % 10 == m0;
    assert seconds / 10 == s1 && seconds % 10 == s0;
    Pad2Digits(minutes);
    Pad2Digits(seconds);
  }

  /** Zero seconds render as "00:00". */
  lemma FormatSecondsZero()
    ensures FormatSeconds(0) == "00:00"
  {
    Pad2Digits(0);
  }

  /** Different second counts never render to the same text. */
  lemma FormatSecondsInjective(a: nat, b: nat)
    requires FormatSeconds(a) == FormatSeconds(b)
    ensures a == b
  {
    FormatSecondsRoundTrip(a);
    FormatSecondsRoundTrip(b);
  }
}
