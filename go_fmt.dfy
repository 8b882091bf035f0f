/// The `fmt.Sprintf` verbs the client formats commands with: `%x`, `%0Nx`,
/// `%04X`, `%d`, `%02d`, `%016b`, and `%x` applied to a string.
module GoFmt {
  import opened GoInts

  function Pow(base: nat, k: nat): (r: nat)
    requires base >= 2
    ensures r >= 1
  {
    if k == 0 then 1 else base * Pow(base, k - 1)
  }

  /** The digit `d` as Go prints it: `0`-`9`, then `a`-`f` (or `A`-`F`). */
  function DigitChar(d: nat, upper: bool): (c: char)
    requires d < 16
    ensures c != '-' && c != ':' && c != '|' && c != ';' && c != '\\' && c != ' ' && c != ','
  {
    if d < 10 then ('0' as int + d) as char
    else if upper then ('A' as int + d - 10) as char
    else ('a' as int + d - 10) as char
  }

  /** The digits of `n` in `base`, most significant first, without leading
    * zeros; zero is the single digit `0`. */
  function Numeral(n: nat, base: nat, upper: bool): (s: string)
    requires 2 <= base <= 16
    ensures |s| >= 1
    decreases n
  {
    if n < base then [DigitChar(n, upper)]
    else Numeral(n / base, base, upper) + [DigitChar(n % base, upper)]
  }

  function Zeros(k: nat): (s: string)
    ensures |s| == k
    ensures forall i :: 0 <= i < k ==> s[i] == '0'
  {
    seq(k, _ => '0')
  }

  /** `%0<width>` with a base verb, of a non-negative value: the numeral,
    * with zeros added on the left until it is `width` characters long. */
  function Padded(n: nat, base: nat, upper: bool, width: nat): (s: string)
    requires 2 <= base <= 16
    ensures |s| >= width
  {
    var digits := Numeral(n, base, upper);
    if |digits| >= width then digits else Zeros(width - |digits|) + digits
  }

  /** `%0<width>` of a signed value: a negative value prints `-` then its
    * magnitude, and the sign uses up one of the `width` places. */
  function SignedPadded(x: int, base: nat, upper: bool, width: nat): string
    requires 2 <= base <= 16
  {
    if x < 0 then "-" + Padded(-x, base, upper, if width == 0 then 0 else width - 1)
    else Padded(x, base, upper, width)
  }

  /** `%0<width>x`; a `width` of 0 is plain `%x`. */
  function Hex(n: nat, width: nat): string
  {
    Padded(n, 16, false, width)
  }

  /** `%0<width>d` of a non-negative value; a `width` of 0 is plain `%d`. */
  function Dec(n: nat, width: nat): string
  {
    Padded(n, 10, false, width)
  }

  /** `%d` of a signed value. */
  function SignedDec(x: int): string
  {
    SignedPadded(x, 10, false, 0)
  }

  /** `%x` applied to a string: two lowercase hex digits per byte. */
  function HexOfBytes(s: string): string
  {
    if s == [] then [] else Hex(s[0] as int, 2) + HexOfBytes(s[1..])
  }

  /** A numeral has at most `k` digits exactly when the value is below `base^k`. */
  lemma {:induction false} NumeralLength(n: nat, base: nat, upper: bool, k: nat)
    requires 2 <= base <= 16 && k >= 1
    ensures |Numeral(n, base, upper)| <= k <==> n < Pow(base, k)
    decreases n
  {
    if n < base {
      assert Pow(base, k) >= base by { PowAtLeastBase(base, k); }
    } else if k == 1 {
      assert Pow(base, 1) == base;
      assert |Numeral(n, base, upper)| >= 2;
    } else {
      NumeralLength(n / base, base, upper, k - 1);
      DivBelowPow(n, base, k);
    }
  }

  lemma PowAtLeastBase(base: nat, k: nat)
    requires base >= 2 && k >= 1
    ensures Pow(base, k) >= base
  {
    if k > 1 {
      PowAtLeastBase(base, k - 1);
    }
  }

  lemma DivBelowPow(n: nat, base: nat, k: nat)
    requires base >= 2 && k >= 1
    ensures n / base < Pow(base, k - 1) <==> n < Pow(base, k)
  {
    var q, r := n / base, n % base;
    assert n == q * base + r && r < base;
    var p := Pow(base, k - 1);
    assert Pow(base, k) == p * base;
    if q < p {
      MulMonotone(q + 1, p, base);
    } else {
      MulMonotone(p, q, base);
    }
  }

  lemma MulMonotone(a: nat, b: nat, c: nat)
    requires a <= b
    ensures a * c <= b * c
  {
  }

  /** Padding to `width` yields exactly `width` characters when the value has
    * at most that many digits. */
  lemma PaddedLength(n: nat, base: nat, upper: bool, width: nat)
    requires 2 <= base <= 16 && width >= 1 && n < Pow(base, width)
    ensures |Padded(n, base, upper, width)| == width
  {
    NumeralLength(n, base, upper, width);
  }

  lemma HexLength(n: nat, width: nat)
    requires width >= 1 && n < Pow(16, width)
    ensures |Hex(n, width)| == width
  {
    PaddedLength(n, 16, false, width);
  }

  lemma DecLength(n: nat, width: nat)
    requires width >= 1 && n < Pow(10, width)
    ensures |Dec(n, width)| == width
  {
    PaddedLength(n, 10, false, width);
  }

  /** The powers the command widths use. */
  lemma PowValues()
    ensures Pow(16, 1) == 0x10 && Pow(16, 2) == 0x100 && Pow(16, 3) == 0x1000 && Pow(16, 4) == 0x1_0000
    ensures Pow(16, 6) == 0x100_0000 && Pow(16, 8) == 0x1_0000_0000
    ensures Pow(10, 1) == 10 && Pow(10, 2) == 100 && Pow(10, 3) == 1000
  {
    assert Pow(16, 4) == 0x1_0000;
    assert Pow(16, 8) == 0x1_0000_0000;
    assert Pow(10, 3) == 1000;
  }
}
