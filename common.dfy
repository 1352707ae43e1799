/**
 * Shared vocabulary of the model: optional values, the Python exceptions the
 * core raises, the prefix slice that both Python (`s[:stop]`) and JavaScript
 * (`s.slice(0, stop)`) use, and the radix rendering of integers that Python's
 * `str(int)` and JavaScript's `Number.prototype.toString(radix)` perform.
 */
module Common {

  datatype Option<+T> = None | Some(value: T)

  /** The exceptions the core raises, by their Python class (and message, where the source gives one). */
  datatype Error =
    | RuntimeError(message: string)
    | IndexError
    | KeyError(key: int)
    | UnboundLocalError(name: string)
    | AttributeError(name: string)
    | TypeError

  datatype Result<+T> = Ok(value: T) | Err(error: Error)

  /** Number of elements kept by `s[:stop]` (Python) or `s.slice(0, stop)` (JavaScript) on a sequence of length n. */
  function SliceEnd(n: nat, stop: int): (k: nat)
    ensures k <= n
    ensures 0 <= stop <= n ==> k == stop
    ensures stop > n ==> k == n
    ensures stop < 0 ==> k == if n + stop < 0 then 0 else n + stop
  {
    if stop < 0 then (if n + stop < 0 then 0 else n + stop)
    else if stop > n then n
    else stop
  }

  function SliceTo<T>(s: seq<T>, stop: int): seq<T>
  {
    s[..SliceEnd(|s|, stop)]
  }

  // ---------------------------------------------------------------------
  // Radix rendering (no leading zeros, lower-case digits) and its inverse
  // ---------------------------------------------------------------------

  const DigitChars: string := "0123456789abcdef"

  function DigitValue(c: char): (d: nat)
    ensures d < 16
  {
    if '0' <= c <= '9' then (c as int - '0' as int)
    else if 'a' <= c <= 'f' then (c as int - 'a' as int + 10)
    else 0
  }

  lemma DigitValueOfDigit(d: nat)
    requires d < 16
    ensures DigitValue(DigitChars[d]) == d
  {
  }

  /** Digits of n in the given base, most significant first, "0" for zero. */
  function ToRadix(n: nat, base: nat): (s: string)
    requires 2 <= base <= 16
    decreases n
  {
    if n < base then [DigitChars[n]]
    else ToRadix(n / base, base) + [DigitChars[n % base]]
  }

  /** Value of a digit string, read most significant digit first. */
  function ParseRadix(s: string, base: nat): nat
    requires 2 <= base <= 16
    decreases |s|
  {
    if s == [] then 0
    else ParseRadix(s[..|s| - 1], base) * base + DigitValue(s[|s| - 1])
  }

  lemma {:induction false} RadixRoundTrip(n: nat, base: nat)
    requires 2 <= base <= 16
    ensures ParseRadix(ToRadix(n, base), base) == n
    decreases n
  {
    if n < base {
      DigitValueOfDigit(n);
      assert [DigitChars[n]][..0] == [];
    } else {
      Shrinks(n, base);
      RadixRoundTrip(n / base, base);
      RadixStep(n, base);
    }
  }

  /** One digit of the round trip: the last digit and the value of the others recombine to n. */
  lemma RadixStep(n: nat, base: nat)
    requires 2 <= base <= n && base <= 16
    requires ParseRadix(ToRadix(n / base, base), base) == n / base
    ensures ParseRadix(ToRadix(n, base), base) == n
  {
    var q, r := n / base, n % base;
    var s := ToRadix(q, base);
    DigitValueOfDigit(r);
    assert ToRadix(n, base) == s + [DigitChars[r]];
    ParseAppend(s, DigitChars[r], base);
    Recombine(n, base, ParseRadix(s, base));
  }

  lemma Recombine(n: nat, b: nat, p: nat)
    requires b > 0 && p == n / b
    ensures p * b + n % b == n
  {
  }

  lemma ParseAppend(s: string, c: char, base: nat)
    requires 2 <= base <= 16
    ensures ParseRadix(s + [c], base) == ParseRadix(s, base) * base + DigitValue(c)
  {
    assert (s + [c])[..|s|] == s;
  }

  /** A digit the renderings use: 0-9 or a lower-case a-f. */
  predicate IsHexDigit(c: char)
  {
    '0' <= c <= '9' || 'a' <= c <= 'f'
  }

  lemma {:induction false} RadixDigits(n: nat, base: nat)
    requires 2 <= base <= 16
    ensures |ToRadix(n, base)| >= 1
    ensures forall i | 0 <= i < |ToRadix(n, base)| :: IsHexDigit(ToRadix(n, base)[i])
    decreases n
  {
    if n < base {
      DigitCharShape(n);
    } else {
      var p := ToRadix(n / base, base);
      var s := p + [DigitChars[n % base]];
      Shrinks(n, base);
      RadixDigits(n / base, base);
      DigitCharShape(n % base);
      assert ToRadix(n, base) == s;
      forall i | 0 <= i < |s|
        ensures IsHexDigit(s[i])
      {
        if i < |p| {
          assert s[i] == p[i];
        }
      }
    }
  }

  /** Dropping the last digit makes a number of two or more digits smaller. */
  lemma Shrinks(n: nat, base: nat)
    requires 2 <= base <= n
    ensures n / base < n
  {
    QuotientBound(n, base, n);
  }

  lemma DigitCharShape(d: nat)
    requires d < 16
    ensures IsHexDigit(DigitChars[d])
  {
  }

  /** Powers of a base, for length bounds. */
  function Pow(base: nat, k: nat): nat
  {
    if k == 0 then 1 else base * Pow(base, k - 1)
  }

  lemma {:induction false} RadixLength(n: nat, base: nat, k: nat)
    requires 2 <= base <= 16
    requires 1 <= k && n < Pow(base, k)
    ensures |ToRadix(n, base)| <= k
    decreases k
  {
    if n >= base {
      assert Pow(base, 1) == base;
      assert k > 1;
      assert Pow(base, k) == base * Pow(base, k - 1);
      QuotientBound(n, base, Pow(base, k - 1));
      RadixLength(n / base, base, k - 1);
    }
  }

  lemma QuotientBound(n: nat, b: nat, p: nat)
    requires b > 0 && n < b * p
    ensures n / b < p
  {
    assert (n / b) * b <= n;
  }

  /** Leading zero digits do not change the value of a digit string. */
  lemma {:induction false} LeadingZeros(z: nat, s: string, base: nat)
    requires 2 <= base <= 16
    ensures ParseRadix(seq(z, _ => '0') + s, base) == ParseRadix(s, base)
    decreases z + |s|
  {
    var t := seq(z, _ => '0') + s;
    if s == [] {
      if z > 0 {
        assert t[..|t| - 1] == seq(z - 1, _ => '0') + [];
        LeadingZeros(z - 1, [], base);
      }
    } else {
      assert t[..|t| - 1] == seq(z, _ => '0') + s[..|s| - 1];
      LeadingZeros(z, s[..|s| - 1], base);
    }
  }

  /** Python's `str(i)` and JavaScript's `String(i)` for an integer. */
  function DecimalString(i: int): string
  {
    if i < 0 then "-" + ToRadix(-i, 10) else ToRadix(i, 10)
  }

  function ParseDecimal(s: string): int
  {
    if |s| > 0 && s[0] == '-' then -(ParseRadix(s[1..], 10) as int) else ParseRadix(s, 10)
  }

  lemma DecimalRoundTrip(i: int)
    ensures ParseDecimal(DecimalString(i)) == i
  {
    if i < 0 {
      NegativeRoundTrip(-i);
    } else {
      UnsignedRoundTrip(i);
    }
  }

  lemma NegativeRoundTrip(n: nat)
    requires n > 0
    ensures ParseDecimal(DecimalString(-(n as int))) == -(n as int)
  {
    RadixRoundTrip(n, 10);
    ParseNegative(ToRadix(n, 10));
  }

  lemma UnsignedRoundTrip(n: nat)
    ensures ParseDecimal(DecimalString(n)) == n
  {
    RadixRoundTrip(n, 10);
    RadixDigits(n, 10);
    ParseUnsigned(ToRadix(n, 10));
  }

  lemma ParseNegative(d: string)
    ensures ParseDecimal("-" + d) == -(ParseRadix(d, 10) as int)
  {
    assert ("-" + d)[1..] == d;
  }

  lemma ParseUnsigned(d: string)
    requires |d| >= 1 && d[0] != '-'
    ensures ParseDecimal(d) == ParseRadix(d, 10)
  {
  }
}
