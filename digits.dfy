/** Decimal text as JavaScript prints a non-negative integer (`n.toString()`),
    left padding with '0' (`padStart(2, '0')`), and the value a digit string
    denotes, so that rendered numbers can be read back. */
module Digits {

  predicate IsDigit(c: char) {
    '0' <= c <= '9'
  }

  predicate AllDigits(s: string) {
    forall i :: 0 <= i < |s| ==> IsDigit(s[i])
  }

  function DigitChar(d: nat): (c: char)
    requires d < 10
    ensures IsDigit(c) && c as int - '0' as int == d
  {
    (d + '0' as int) as char
  }

  /** The number a string of decimal digits denotes; leading zeros allowed. */
  function DecimalValue(s: string): nat
    requires AllDigits(s)
  {
    if s == [] then 0
    else DecimalValue(s[..|s| - 1]) * 10 + (s[|s| - 1] as int - '0' as int)
  }

  /** `n.toString()` for a non-negative integer: no leading zeros, at least one digit. */
  function DecimalString(n: nat): (r: string)
    ensures AllDigits(r) && 1 <= |r|
    ensures |r| == 1 <==> n < 10
    ensures n < 100 ==> |r| <= 2
    ensures r[0] == '0' ==> n == 0
  {
    if n < 10 then [DigitChar(n)] else DecimalString(n / 10) + [DigitChar(n % 10)]
  }

  /** `s.padStart(2, '0')`: strings of length two or more are returned as they are. */
  function PadStart2(s: string): (r: string)
    ensures |r| == if |s| >= 2 then |s| else 2
    ensures r[|r| - |s|..] == s
    ensures forall i :: 0 <= i < |r| - |s| ==> r[i] == '0'
  {
    if |s| >= 2 then s else if |s| == 1 then ['0'] + s else "00"
  }

  lemma {:induction false} DecimalValueSnoc(s: string, c: char)
    requires AllDigits(s) && IsDigit(c)
    ensures AllDigits(s + [c])
    ensures DecimalValue(s + [c]) == DecimalValue(s) * 10 + (c as int - '0' as int)
  {
    assert (s + [c])[..|s|] == s;
  }

  /** A leading zero does not change the value. */
  lemma {:induction false} LeadingZero(s: string)
    requires AllDigits(s)
    ensures AllDigits(['0'] + s) && DecimalValue(['0'] + s) == DecimalValue(s)
  {
    if s != [] {
      var init := s[..|s| - 1];
      LeadingZero(init);
      assert ['0'] + s == (['0'] + init) + [s[|s| - 1]];
      DecimalValueSnoc(['0'] + init, s[|s| - 1]);
      assert s == init + [s[|s| - 1]];
      DecimalValueSnoc(init, s[|s| - 1]);
    }
  }

  /** Reading back what `toString` printed gives the number. */
  lemma {:induction false} DecimalRoundTrip(n: nat)
    ensures DecimalValue(DecimalString(n)) == n
  {
    if n < 10 {
      assert DecimalString(n) == [] + [DigitChar(n)];
      DecimalValueSnoc([], DigitChar(n));
    } else {
      DecimalRoundTrip(n / 10);
      DecimalValueSnoc(DecimalString(n / 10), DigitChar(n % 10));
    }
  }

  /** Padding with zeros keeps the digits and their value. */
  lemma PadStart2Value(s: string)
    requires AllDigits(s)
    ensures AllDigits(PadStart2(s)) && DecimalValue(PadStart2(s)) == DecimalValue(s)
  {
    if |s| == 1 {
      LeadingZero(s);
    } else if |s| == 0 {
      LeadingZero(s);
      LeadingZero(['0'] + s);
      assert PadStart2(s) == ['0'] + (['0'] + s);
    }
  }

  /** A zero-padded `toString` reads back as the number it printed. */
  lemma PaddedRoundTrip(n: nat)
    ensures AllDigits(PadStart2(DecimalString(n)))
    ensures DecimalValue(PadStart2(DecimalString(n))) == n
  {
    PadStart2Value(DecimalString(n));
    DecimalRoundTrip(n);
  }
}
