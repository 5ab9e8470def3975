/** Hexadecimal digits: the printf conversion "%0<w>X" and the int(text, 16)
    reading that the WAL names and LSN text are built from. */
module Hex {

  predicate IsUpperHexDigit(c: char)
  {
    '0' <= c <= '9' || 'A' <= c <= 'F'
  }

  predicate IsHexDigit(c: char)
  {
    IsUpperHexDigit(c) || 'a' <= c <= 'f'
  }

  /** Every character is one of 0-9 A-F. */
  predicate IsUpperHex(s: string)
  {
    forall i :: 0 <= i < |s| ==> IsUpperHexDigit(s[i])
  }

  /** Every character is a hex digit of either case. */
  predicate IsHex(s: string)
  {
    forall i :: 0 <= i < |s| ==> IsHexDigit(s[i])
  }

  function DigitValue(c: char): (d: nat)
    requires IsHexDigit(c)
    ensures d < 16
  {
    if '0' <= c <= '9' then c as int - '0' as int
    else if 'A' <= c <= 'F' then c as int - 'A' as int + 10
    else c as int - 'a' as int + 10
  }

  /** The upper-case digit for d; reading it back gives d. */
  function DigitChar(d: nat): (c: char)
    requires d < 16
    ensures IsUpperHexDigit(c) && DigitValue(c) == d
  {
    if d < 10 then ('0' as int + d) as char else ('A' as int + d - 10) as char
  }

  function Pow16(k: nat): (p: nat)
    ensures p >= 1
  {
    if k == 0 then 1 else 16 * Pow16(k - 1)
  }

  /** 16^8: the first value that no longer fits in 32 bits. */
  const Span32: nat := 0x1_0000_0000

  lemma Pow16Eight()
    ensures Pow16(8) == Span32
  {
  }

  /** The value of a hex numeral, most significant digit first; it is below 16^|s|. */
  function HexValue(s: string): (v: nat)
    requires IsHex(s)
    ensures v < Pow16(|s|)
  {
    if s == [] then 0
    else
      var h := HexValue(s[..|s| - 1]);
      assert h + 1 <= Pow16(|s| - 1);
      assert h * 16 + 16 <= Pow16(|s| - 1) * 16;
      h * 16 + DigitValue(s[|s| - 1])
  }

  /** The last `width` hex digits of n, upper case, zero-padded. */
  function FixedHex(n: nat, width: nat): (s: string)
    ensures |s| == width && IsUpperHex(s)
  {
    if width == 0 then [] else FixedHex(n / 16, width - 1) + [DigitChar(n % 16)]
  }

  /** How many hex digits n needs (at least one, as "%X" prints 0 as "0"). */
  function NumDigits(n: nat): (k: nat)
    ensures 1 <= k && n < Pow16(k)
  {
    if n < 16 then 1 else 1 + NumDigits(n / 16)
  }

  /** printf("%0<minWidth>X", n): upper-case hex, zero-padded to minWidth, never
      truncated; FormatHexValue shows it reads back as n. */
  function FormatHex(n: nat, minWidth: nat): (s: string)
    ensures |s| == if minWidth < NumDigits(n) then NumDigits(n) else minWidth
    ensures IsUpperHex(s)
  {
    FixedHex(n, if minWidth < NumDigits(n) then NumDigits(n) else minWidth)
  }

  /** What "%0<w>X" prints reads back as the value printed. */
  lemma FormatHexValue(n: nat, minWidth: nat)
    ensures HexValue(FormatHex(n, minWidth)) == n
  {
    var w := if minWidth < NumDigits(n) then NumDigits(n) else minWidth;
    FixedHexValue(n, w);
    Pow16Monotone(NumDigits(n), w);
    ModOfSmall(n, Pow16(w));
  }

  /** Division and remainder are determined by any decomposition n == d * q + r with 0 <= r < d. */
  lemma DivModUnique(n: int, d: int, q: int, r: int)
    requires d > 0 && 0 <= r < d && n == d * q + r
    ensures n / d == q && n % d == r
  {
    var q0, r0 := n / d, n % d;
    var k := q - q0;
    assert d * q == d * q0 + d * k;
    assert d * k == r0 - r;
    if k > 0 {
      MulAtLeast(d, k);
    } else if k < 0 {
      MulAtLeast(d, -k);
    }
  }

  /** Quotient times divisor plus remainder is the dividend. */
  lemma DivModRecombine(n: int, d: int, q: int, r: int)
    requires d > 0 && q == n / d && r == n % d
    ensures q * d + r == n
  {
  }

  /** Splitting n by k * s and then the remainder by s: the parts recombine to n, and
      the inner remainder is n's own remainder by s. */
  lemma TwoLevelDivMod(n: nat, k: nat, s: nat)
    requires k > 0 && s > 0
    ensures n % (k * s) / s < k
    ensures n % (k * s) % s == n % s
    ensures n / (k * s) * (k * s) + n % (k * s) / s * s + n % s == n
  {
    var q, w := n / (k * s), n % (k * s);
    var a, o := w / s, w % s;
    assert n == (k * s) * q + w;
    assert w == s * a + o;
    assert n == s * (k * q + a) + o by {
      assert (k * s) * q == s * (k * q);
      assert s * (k * q) + s * a == s * (k * q + a);
    }
    DivModUnique(n, s, k * q + a, o);
    assert w < s * k;
    DivBelow(w, s, k);
    assert q * (k * s) == (k * s) * q;
    assert a * s == s * a;
  }

  lemma MulAtLeast(d: int, k: int)
    requires d > 0 && k >= 1
    ensures d * k >= d
  {
    assert d * k == d + d * (k - 1);
  }

  lemma MulMonotone(d: nat, a: nat, b: nat)
    requires a <= b
    ensures d * a <= d * b
  {
    assert d * b == d * a + d * (b - a);
  }

  /** Below d * k, the quotient by d is below k. */
  lemma DivBelow(n: nat, d: nat, k: nat)
    requires d > 0 && n < d * k
    ensures n / d < k
  {
    DivModUnique(n, d, n / d, n % d);
    if n / d >= k {
      MulMonotone(d, k, n / d);
    }
  }

  /** q * d + r stays below k * d when q < k and r < d. */
  lemma MixedRadixBelow(q: nat, d: nat, r: nat, k: nat)
    requires q < k && r < d
    ensures q * d + r < k * d
  {
    MulMonotone(d, q + 1, k);
    assert d * (q + 1) == d * q + d;
  }

  lemma ModOfSmall(n: nat, p: nat)
    requires n < p
    ensures n % p == n
  {
    DivModUnique(n, p, 0, n);
  }

  lemma {:induction false} Pow16Monotone(i: nat, j: nat)
    requires i <= j
    ensures Pow16(i) <= Pow16(j)
  {
    if i < j {
      Pow16Monotone(i, j - 1);
    }
  }

  /** Peeling off the last hex digit of n modulo 16 * p. */
  lemma ModOfScaled(n: nat, p: nat)
    requires p > 0
    ensures (n / 16) % p * 16 + n % 16 == n % (16 * p)
  {
    var q, r := n / 16, n % 16;
    var a, b := q / p, q % p;
    assert n == 16 * q + r;
    assert q == p * a + b;
    assert n == (16 * p) * a + (16 * b + r) by {
      assert 16 * q == 16 * (p * a) + 16 * b;
      assert 16 * (p * a) == (16 * p) * a;
    }
    assert 16 * b + r < 16 * p by {
      assert b + 1 <= p;
      assert 16 * (b + 1) <= 16 * p;
    }
    DivModUnique(n, 16 * p, a, 16 * b + r);
  }

  /** Reading back the last `width` digits of n gives n modulo 16^width. */
  lemma {:induction false} FixedHexValue(n: nat, width: nat)
    ensures HexValue(FixedHex(n, width)) == n % Pow16(width)
  {
    if width > 0 {
      var s := FixedHex(n, width);
      assert s[..|s| - 1] == FixedHex(n / 16, width - 1);
      assert s[|s| - 1] == DigitChar(n % 16);
      FixedHexValue(n / 16, width - 1);
      ModOfScaled(n, Pow16(width - 1));
    }
  }

  /** Printing an upper-case numeral's value at the numeral's width gives the numeral back. */
  lemma {:induction false} UpperHexRoundTrip(s: string)
    requires IsUpperHex(s)
    ensures FixedHex(HexValue(s), |s|) == s
  {
    if s != [] {
      var init, c := s[..|s| - 1], s[|s| - 1];
      var v := HexValue(s);
      assert IsUpperHex(init) by {
        forall i | 0 <= i < |init| ensures IsUpperHexDigit(init[i]) {
          assert init[i] == s[i];
        }
      }
      DivModUnique(v, 16, HexValue(init), DigitValue(c));
      UpperHexRoundTrip(init);
      assert DigitChar(DigitValue(c)) == c;
      assert init + [c] == s;
    }
  }

  /** A value below 16^k needs no more than k digits. */
  lemma {:induction false} NumDigitsAtMost(n: nat, k: nat)
    requires 1 <= k && n < Pow16(k)
    ensures NumDigits(n) <= k
  {
    if n >= 16 {
      assert k >= 2;
      assert n / 16 < Pow16(k - 1) by {
        DivModUnique(n, 16, n / 16, n % 16);
        assert 16 * (n / 16) <= n < 16 * Pow16(k - 1);
      }
      NumDigitsAtMost(n / 16, k - 1);
    }
  }

  /** An upper-case numeral of at least one digit is what "%0<w>X" prints for its value at its own width w. */
  lemma UpperHexFormat(s: string)
    requires IsUpperHex(s) && |s| >= 1
    ensures FormatHex(HexValue(s), |s|) == s
  {
    NumDigitsAtMost(HexValue(s), |s|);
    UpperHexRoundTrip(s);
  }

  /** A 32-bit value prints as exactly eight digits under "%08X". */
  lemma FormatHex32(n: nat)
    requires n < Span32
    ensures FormatHex(n, 8) == FixedHex(n, 8)
  {
    Pow16Eight();
    NumDigitsAtMost(n, 8);
  }

  lemma UpperHexConcat(a: string, b: string)
    ensures IsUpperHex(a + b) <==> IsUpperHex(a) && IsUpperHex(b)
  {
    if IsUpperHex(a + b) {
      assert forall i :: 0 <= i < |a| ==> (a + b)[i] == a[i];
      assert forall i :: 0 <= i < |b| ==> (a + b)[|a| + i] == b[i];
    }
  }
}
