/**
 * Numbers as text: `String.valueOf(int)` and `BigInteger.toString()`, and
 * the 32-bit truncation of `Number.intValue()`.
 */
module Numerals {
  import opened Wrappers

  const Int32Min: int := -0x8000_0000
  const Int32Max: int := 0x7FFF_FFFF

  /** `Number.intValue()` of an integral number: its low 32 bits, read as two's complement. */
  function WrapInt32(i: int): (r: int)
    ensures Int32Min <= r <= Int32Max
    ensures Int32Min <= i <= Int32Max ==> r == i
    ensures (r - i) % 0x1_0000_0000 == 0
  {
    (i - Int32Min) % 0x1_0000_0000 + Int32Min
  }

  /** The decimal digit of value `d`. */
  function DigitChar(d: nat): (c: char)
    requires d < 10
    ensures DigitValue(c) == Some(d)
  {
    ('0' as int + d) as char
  }

  function DigitValue(c: char): Option<nat> {
    if '0' <= c <= '9' then Some(c as int - '0' as int) else None
  }

  /** The decimal digits of `n`, most significant first, without leading zeros. */
  function Digits(n: nat): (r: string)
    ensures |r| >= 1
    decreases n
  {
    if n < 10 then [DigitChar(n)] else Digits(n / 10) + [DigitChar(n % 10)]
  }

  /** `String.valueOf(int)`, `Long.toString` and `BigInteger.toString()`: an optional minus sign, then the digits. */
  function DecimalText(i: int): string {
    if i < 0 then "-" + Digits(-i) else Digits(i)
  }

  /** Reads decimal digits, most significant first; the empty text and any other character are rejected. */
  function ParseDigits(s: string): Option<nat> {
    if s == [] then None
    else
      var last := DigitValue(s[|s| - 1]);
      if last.None? then None
      else if |s| == 1 then Some(last.value)
      else match ParseDigits(s[..|s| - 1])
        case None => None
        case Some(high) => Some(high * 10 + last.value)
  }

  function ParseDecimal(s: string): Option<int> {
    if |s| > 0 && s[0] == '-' then
      match ParseDigits(s[1..])
      case None => None
      case Some(n) => Some(0 - n)
    else ParseDigits(s)
  }

  lemma ParseDigitsSnoc(t: string, c: char)
    requires ParseDigits(t).Some? && DigitValue(c).Some?
    ensures ParseDigits(t + [c]) == Some(ParseDigits(t).value * 10 + DigitValue(c).value)
  {
    var s := t + [c];
    assert s[|s| - 1] == c;
    assert s[..|s| - 1] == t;
  }

  lemma {:induction false} ParseDigitsOfDigits(n: nat)
    ensures ParseDigits(Digits(n)) == Some(n)
  {
    if n >= 10 {
      ParseDigitsOfDigits(n / 10);
      ParseDigitsSnoc(Digits(n / 10), DigitChar(n % 10));
    }
  }

  lemma {:induction false} DigitsAreDigits(n: nat)
    ensures forall k :: 0 <= k < |Digits(n)| ==> DigitValue(Digits(n)[k]).Some?
  {
    if n >= 10 {
      DigitsAreDigits(n / 10);
    }
  }

  /** Reading back the decimal text of an integer gives the integer: the text identifies it. */
  lemma DecimalRoundTrip(i: int)
    ensures ParseDecimal(DecimalText(i)) == Some(i)
  {
    if i < 0 {
      ParseDigitsOfDigits(-i);
      assert ("-" + Digits(-i))[1..] == Digits(-i);
    } else {
      ParseDigitsOfDigits(i);
      DigitsAreDigits(i);
    }
  }

  function Pow10(k: nat): nat {
    if k == 0 then 1 else 10 * Pow10(k - 1)
  }

  lemma {:induction false} Pow10AtLeast(k: nat)
    requires k >= 1
    ensures Pow10(k) >= 10
  {
    if k > 1 {
      Pow10AtLeast(k - 1);
    }
  }

  /** A number takes more than `k` digits exactly when it is at least `10^k`. */
  lemma {:induction false} DigitsLength(n: nat, k: nat)
    requires k >= 1
    ensures |Digits(n)| > k <==> n >= Pow10(k)
    decreases n
  {
    Pow10AtLeast(k);
    if n >= 10 && k > 1 {
      DigitsLength(n / 10, k - 1);
    }
  }

  lemma {:induction false} Pow10Add(a: nat, b: nat)
    ensures Pow10(a + b) == Pow10(a) * Pow10(b)
  {
    if a > 0 {
      Pow10Add(a - 1, b);
    }
  }

  /** 2^256, the number of values `new BigInteger(256, random)` can take. */
  const TwoTo256: nat := 115792089237316195423570985008687907853269984665640564039457584007913129639936

  /** 2^232, the number of values `new BigInteger(232, random)` can take. */
  const TwoTo232: nat := 6901746346790563787434755862277025452451108972170386555162524223799296

  lemma Pow10To70()
    ensures Pow10(70) == 10000000000000000000000000000000000000000000000000000000000000000000000
  {
    assert Pow10(5) == 100000;
    assert Pow10(10) == 10000000000 by {
      Pow10Add(5, 5);
    }
    assert Pow10(20) == 100000000000000000000 by {
      Pow10Add(10, 10);
    }
    assert Pow10(40) == 10000000000000000000000000000000000000000 by {
      Pow10Add(20, 20);
    }
    assert Pow10(60) == 1000000000000000000000000000000000000000000000000000000000000 by {
      Pow10Add(40, 20);
    }
    Pow10Add(60, 10);
  }
}
