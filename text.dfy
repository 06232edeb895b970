/** The two string operations the component uses on its number: the decimal
    numeral of a non-negative integer (what `toString()` writes for an
    integer below 10^21, which covers the component's 0..99), and
    `padStart(targetLength, fill)` with a one-character fill. `ParseDecimal`
    reads a numeral back, so that what is shown can be compared with the value. */
module Text {

  predicate IsDigit(c: char) {
    '0' <= c <= '9'
  }

  predicate AllDigits(s: string) {
    forall i :: 0 <= i < |s| ==> IsDigit(s[i])
  }

  function DigitValue(c: char): (d: nat)
    requires IsDigit(c)
    ensures d < 10
  {
    c as int - '0' as int
  }

  function DigitChar(d: int): (c: char)
    requires 0 <= d < 10
    ensures IsDigit(c) && DigitValue(c) == d
  {
    ('0' as int + d) as char
  }

  /** The numeral of `n` in base ten, most significant digit first, without
      leading zeros: what `n.toString()` gives for an integer `n` below 10^21
      (from 10^21 on JavaScript switches to exponent form). */
  function Decimal(n: nat): (s: string)
    ensures |s| >= 1 && AllDigits(s)
    ensures |s| > 1 ==> s[0] != '0'
    ensures n < 10 <==> |s| == 1
    ensures n < 100 <==> |s| <= 2
    decreases n
  {
    if n < 10 then [DigitChar(n)] else Decimal(n / 10) + [DigitChar(n % 10)]
  }

  /** The value of a numeral; the empty numeral reads as zero. */
  function ParseDecimal(s: string): nat
    requires AllDigits(s)
    decreases |s|
  {
    if s == [] then 0 else ParseDecimal(s[..|s| - 1]) * 10 + DigitValue(s[|s| - 1])
  }

  function Repeat(c: char, k: nat): (s: string)
    ensures |s| == k
    ensures forall i :: 0 <= i < k ==> s[i] == c
  {
    seq(k, _ => c)
  }

  /** `s.padStart(target, fill)`: `s` itself when it is already `target`
      characters or longer, otherwise `s` preceded by enough copies of `fill`
      to reach exactly `target` characters. */
  function PadStart(s: string, target: nat, fill: char): (r: string)
    ensures |r| == if |s| >= target then |s| else target
    ensures r[|r| - |s|..] == s
    ensures forall i :: 0 <= i < |r| - |s| ==> r[i] == fill
  {
    if |s| >= target then s else Repeat(fill, target - |s|) + s
  }

  /** Reading a numeral back gives the number it was written from. */
  lemma {:induction false} ParseDecimalOfDecimal(n: nat)
    ensures ParseDecimal(Decimal(n)) == n
    decreases n
  {
    if n >= 10 {
      var s := Decimal(n);
      assert s == Decimal(n / 10) + [DigitChar(n % 10)];
      assert s[..|s| - 1] == Decimal(n / 10);
      ParseDecimalOfDecimal(n / 10);
    }
  }

  lemma {:induction false} ParseZeros(k: nat)
    ensures AllDigits(Repeat('0', k)) && ParseDecimal(Repeat('0', k)) == 0
    decreases k
  {
    if k > 0 {
      assert Repeat('0', k)[..k - 1] == Repeat('0', k - 1);
      ParseZeros(k - 1);
    }
  }

  /** Zeros in front of a numeral do not change its value. */
  lemma {:induction false} ParseIgnoresLeadingZeros(k: nat, s: string)
    requires AllDigits(s)
    ensures AllDigits(Repeat('0', k) + s)
    ensures ParseDecimal(Repeat('0', k) + s) == ParseDecimal(s)
    decreases |s|
  {
    var t := Repeat('0', k) + s;
    assert AllDigits(t) by {
      forall i | 0 <= i < |t| ensures IsDigit(t[i]) {
        if i >= k { assert t[i] == s[i - k]; }
      }
    }
    if s == [] {
      assert t == Repeat('0', k);
      ParseZeros(k);
    } else {
      var p := s[..|s| - 1];
      assert t[..|t| - 1] == Repeat('0', k) + p;
      assert t[|t| - 1] == s[|s| - 1];
      ParseIgnoresLeadingZeros(k, p);
    }
  }
}
