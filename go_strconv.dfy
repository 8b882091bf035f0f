/// The `strconv` parsers the decoders rely on, modelled by their outcome:
/// the value, or a `NumError` for any syntax or range failure.
module GoStrconv {
  import opened GoInts
  import opened Errors
  import opened GoFmt

  /** The value of a digit character in any base up to 36 (letters in either
    * case); 36 for a character that is a digit in no base. */
  function DigitValue(c: char): nat
  {
    if '0' <= c <= '9' then c as int - '0' as int
    else if 'a' <= c <= 'z' then c as int - 'a' as int + 10
    else if 'A' <= c <= 'Z' then c as int - 'A' as int + 10
    else 36
  }

  predicate IsDigits(s: string, base: nat)
  {
    forall i :: 0 <= i < |s| ==> DigitValue(s[i]) < base
  }

  /** The positional value of a digit string, most significant digit first. */
  function Value(s: string, base: nat): nat
    requires IsDigits(s, base)
  {
    if s == [] then 0 else Value(s[..|s| - 1], base) * base + DigitValue(s[|s| - 1])
  }

  /** `strconv.ParseUint(s, base, bitSize)`: no sign and no underscores; a
    * `bitSize` of 0 means 64. */
  function ParseUint(s: string, base: nat, bitSize: nat): (r: Result<nat>)
    requires 2 <= base <= 36 && bitSize <= 64
    ensures r.Ok? <==> s != [] && IsDigits(s, base) && Value(s, base) < Pow2(if bitSize == 0 then 64 else bitSize)
    ensures r.Ok? ==> r.value == Value(s, base)
    ensures r.Err? ==> r.error == NumError
  {
    var bits := if bitSize == 0 then 64 else bitSize;
    if s == [] || !IsDigits(s, base) then Err(NumError)
    else if Value(s, base) >= Pow2(bits) then Err(NumError)
    else Ok(Value(s, base))
  }

  /** `strconv.ParseInt(s, base, bitSize)`: an optional `+` or `-`, then the
    * digits, which must lie in the signed `bitSize`-bit range. */
  function ParseInt(s: string, base: nat, bitSize: nat): (r: Result<int>)
    requires 2 <= base <= 36 && bitSize <= 64
    ensures r.Ok? ==> -(Pow2((if bitSize == 0 then 64 else bitSize) - 1) as int) <= r.value
                      < Pow2((if bitSize == 0 then 64 else bitSize) - 1)
    ensures r.Err? ==> r.error == NumError
  {
    var bits := if bitSize == 0 then 64 else bitSize;
    if s == [] then Err(NumError)
    else
      var neg := s[0] == '-';
      var digits := if s[0] == '+' || s[0] == '-' then s[1..] else s;
      var u :- ParseUint(digits, base, bitSize);
      if !neg && u >= Pow2(bits - 1) then Err(NumError)
      else if neg && u > Pow2(bits - 1) then Err(NumError)
      else Ok(if neg then -(u as int) else u)
  }

  /** `strconv.Atoi`: a signed decimal that fits in 64 bits. */
  function Atoi(s: string): Result<int>
  {
    ParseInt(s, 10, 64)
  }

  /** `strconv.ParseUint(s, base, 8)` converted to `uint8`. */
  function ParseU8(s: string, base: nat): (r: Result<uint8>)
    requires 2 <= base <= 36
    ensures r.Ok? <==> ParseUint(s, base, 8).Ok?
    ensures r.Ok? ==> r.value == ParseUint(s, base, 8).value
    ensures r.Err? ==> r.error == NumError
  {
    var v :- ParseUint(s, base, 8);
    Pow2Eight();
    Ok(v)
  }

  /** `strconv.ParseUint(s, base, 16)` converted to `uint16`. */
  function ParseU16(s: string, base: nat): (r: Result<uint16>)
    requires 2 <= base <= 36
    ensures r.Ok? <==> ParseUint(s, base, 16).Ok?
    ensures r.Ok? ==> r.value == ParseUint(s, base, 16).value
    ensures r.Err? ==> r.error == NumError
  {
    var v :- ParseUint(s, base, 16);
    Pow2Sixteen();
    Ok(v)
  }

  /** `strconv.ParseUint(s, base, 32)` converted to `uint32`. */
  function ParseU32(s: string, base: nat): (r: Result<uint32>)
    requires 2 <= base <= 36
    ensures r.Ok? <==> ParseUint(s, base, 32).Ok?
    ensures r.Ok? ==> r.value == ParseUint(s, base, 32).value
    ensures r.Err? ==> r.error == NumError
  {
    var v :- ParseUint(s, base, 32);
    Pow2ThirtyTwo();
    Ok(v)
  }

  /** `strconv.ParseInt(s, base, 16)` converted to `int16`. */
  function ParseI16(s: string, base: nat): (r: Result<int16>)
    requires 2 <= base <= 36
    ensures r.Ok? <==> ParseInt(s, base, 16).Ok?
    ensures r.Ok? ==> r.value == ParseInt(s, base, 16).value
    ensures r.Err? ==> r.error == NumError
  {
    var v :- ParseInt(s, base, 16);
    Pow2Sixteen();
    Ok(v)
  }

  /** `strconv.ParseInt(s, base, 32)` converted to `int32`. */
  function ParseI32(s: string, base: nat): (r: Result<int32>)
    requires 2 <= base <= 36
    ensures r.Ok? <==> ParseInt(s, base, 32).Ok?
    ensures r.Ok? ==> r.value == ParseInt(s, base, 32).value
    ensures r.Err? ==> r.error == NumError
  {
    var v :- ParseInt(s, base, 32);
    Pow2ThirtyTwo();
    Ok(v)
  }

  /** `strconv.Atoi`, whose result fits in Go's 64-bit `int`. */
  function Atoi64(s: string): (r: Result<int64>)
    ensures r.Ok? <==> Atoi(s).Ok?
    ensures r.Ok? ==> r.value == Atoi(s).value
    ensures r.Err? ==> r.error == NumError
  {
    var v :- Atoi(s);
    Pow2SixtyFour();
    Ok(v)
  }

  /** `strconv.ParseBool`. */
  function ParseBool(s: string): Result<bool>
  {
    if s in {"1", "t", "T", "TRUE", "true", "True"} then Ok(true)
    else if s in {"0", "f", "F", "FALSE", "false", "False"} then Ok(false)
    else Err(NumError)
  }

  // ---------------------------------------------------------------------
  // Formatting followed by parsing gives the value back.

  lemma DigitCharValue(d: nat, upper: bool)
    requires d < 16
    ensures DigitValue(DigitChar(d, upper)) == d
  {
  }

  lemma DivMod(n: nat, base: nat)
    requires base >= 2
    ensures n == (n / base) * base + n % base && n % base < base
    ensures n >= 1 ==> n / base < n
  {
    var q := n / base;
    if n >= 1 && q >= 1 {
      MulMonotone(2, base, q);
    }
  }

  lemma ValueSnoc(prefix: string, c: char, base: nat)
    requires 2 <= base <= 36 && IsDigits(prefix, base) && DigitValue(c) < base
    ensures IsDigits(prefix + [c], base)
    ensures Value(prefix + [c], base) == Value(prefix, base) * base + DigitValue(c)
  {
    var s := prefix + [c];
    assert s[..|s| - 1] == prefix;
  }

  lemma {:induction false} NumeralValue(n: nat, base: nat, upper: bool)
    requires 2 <= base <= 16
    ensures IsDigits(Numeral(n, base, upper), base)
    ensures Value(Numeral(n, base, upper), base) == n
    decreases n
  {
    if n < base {
      NumeralValueDigit(n, base, upper);
    } else {
      DivMod(n, base);
      NumeralValue(n / base, base, upper);
      NumeralValueStep(n, base, upper);
    }
  }

  lemma NumeralValueDigit(n: nat, base: nat, upper: bool)
    requires 2 <= base <= 16 && n < base
    ensures IsDigits(Numeral(n, base, upper), base)
    ensures Value(Numeral(n, base, upper), base) == n
  {
    var s := Numeral(n, base, upper);
    assert s == [DigitChar(n, upper)];
    DigitCharValue(n, upper);
    assert s[..0] == [];
    assert Value(s, base) == Value([], base) * base + n;
  }

  lemma NumeralValueStep(n: nat, base: nat, upper: bool)
    requires 2 <= base <= 16 && n >= base
    requires IsDigits(Numeral(n / base, base, upper), base)
    requires Value(Numeral(n / base, base, upper), base) == n / base
    ensures IsDigits(Numeral(n, base, upper), base)
    ensures Value(Numeral(n, base, upper), base) == n
  {
    var q, r := n / base, n % base;
    DivMod(n, base);
    var prefix := Numeral(q, base, upper);
    assert Numeral(n, base, upper) == prefix + [DigitChar(r, upper)];
    DigitCharValue(r, upper);
    ValueSnoc(prefix, DigitChar(r, upper), base);
  }

  lemma {:induction false} ZerosValue(k: nat, s: string, base: nat)
    requires 2 <= base <= 16 && IsDigits(s, base)
    ensures IsDigits(Zeros(k) + s, base)
    ensures Value(Zeros(k) + s, base) == Value(s, base)
    decreases |s|
  {
    var t := Zeros(k) + s;
    assert IsDigits(t, base) by {
      forall i | 0 <= i < |t|
        ensures DigitValue(t[i]) < base
      {
        if i >= k {
          assert t[i] == s[i - k];
        }
      }
    }
    if s == [] {
      ZerosOnlyValue(k, base);
      assert t == Zeros(k);
    } else {
      var init := s[..|s| - 1];
      assert IsDigits(init, base) by {
        forall i | 0 <= i < |init|
          ensures DigitValue(init[i]) < base
        {
          assert init[i] == s[i];
        }
      }
      ZerosValue(k, init, base);
      assert t[..|t| - 1] == Zeros(k) + init;
      assert t[|t| - 1] == s[|s| - 1];
    }
  }

  lemma {:induction false} ZerosOnlyValue(k: nat, base: nat)
    requires 2 <= base <= 16
    ensures IsDigits(Zeros(k), base) && Value(Zeros(k), base) == 0
  {
    if k > 0 {
      ZerosOnlyValue(k - 1, base);
      assert Zeros(k)[..k - 1] == Zeros(k - 1);
    }
  }

  /** The value and digit-ness of a padded numeral. */
  lemma PaddedValue(n: nat, base: nat, upper: bool, width: nat)
    requires 2 <= base <= 16
    ensures IsDigits(Padded(n, base, upper, width), base)
    ensures Value(Padded(n, base, upper, width), base) == n
  {
    var digits := Numeral(n, base, upper);
    NumeralValue(n, base, upper);
    if |digits| < width {
      ZerosValue(width - |digits|, digits, base);
    }
  }

  /** Round trip: `ParseUint` reads back what `%0<width>` printed. */
  lemma PaddedParse(n: nat, base: nat, upper: bool, width: nat, bitSize: nat)
    requires 2 <= base <= 16 && 1 <= bitSize <= 64 && n < Pow2(bitSize)
    ensures ParseUint(Padded(n, base, upper, width), base, bitSize) == Ok(n)
  {
    PaddedValue(n, base, upper, width);
  }

  lemma HexParse(n: nat, width: nat, bitSize: nat)
    requires 1 <= bitSize <= 64 && n < Pow2(bitSize)
    ensures ParseUint(Hex(n, width), 16, bitSize) == Ok(n)
  {
    PaddedParse(n, 16, false, width, bitSize);
  }

  lemma DecParse(n: nat, width: nat, bitSize: nat)
    requires 1 <= bitSize <= 64 && n < Pow2(bitSize)
    ensures ParseUint(Dec(n, width), 10, bitSize) == Ok(n)
  {
    PaddedParse(n, 10, false, width, bitSize);
  }

  /** A padded numeral starts with a digit, so `ParseInt` reads it as a
    * non-negative value. */
  lemma PaddedParseInt(n: nat, base: nat, upper: bool, width: nat, bitSize: nat)
    requires 2 <= base <= 16 && 1 <= bitSize <= 64 && n < Pow2(bitSize - 1)
    ensures ParseInt(Padded(n, base, upper, width), base, bitSize) == Ok(n)
  {
    var s := Padded(n, base, upper, width);
    PaddedValue(n, base, upper, width);
    assert DigitValue(s[0]) < base;
    Pow2Monotone(bitSize - 1, bitSize);
  }

  lemma ParseIntNegative(digits: string, base: nat, bitSize: nat, u: nat)
    requires 2 <= base <= 36 && 1 <= bitSize <= 64
    requires ParseUint(digits, base, bitSize) == Ok(u) && u <= Pow2(bitSize - 1)
    ensures ParseInt("-" + digits, base, bitSize) == Ok(-(u as int))
  {
    assert ("-" + digits)[1..] == digits;
  }

  /** A digit string with no sign is read by `ParseInt` as by `ParseUint`
    * when it lies below the signed bound. */
  lemma ParseIntUnsigned(s: string, base: nat, bitSize: nat, v: nat)
    requires 2 <= base <= 36 && 1 <= bitSize <= 64
    requires ParseUint(s, base, bitSize) == Ok(v) && v < Pow2(bitSize - 1)
    ensures ParseInt(s, base, bitSize) == Ok(v)
  {
    assert DigitValue(s[0]) < base;
  }

  /** A one-character string is a number exactly when it is a digit; a sign
    * alone is not. */
  lemma ParseIntDigit(c: char, base: nat, bitSize: nat)
    requires 2 <= base <= 16 && 5 <= bitSize <= 64
    ensures ParseInt([c], base, bitSize).Ok? <==> DigitValue(c) < base
    ensures DigitValue(c) < base ==> ParseInt([c], base, bitSize) == Ok(DigitValue(c))
  {
    if DigitValue(c) < base {
      ParseUintDigit(c, base, bitSize);
      Pow2Monotone(4, bitSize - 1);
      assert Pow2(4) == 16;
      ParseIntUnsigned([c], base, bitSize, DigitValue(c));
    } else {
      ParseIntNotDigit(c, base, bitSize);
    }
  }

  lemma ParseUintDigit(c: char, base: nat, bitSize: nat)
    requires 2 <= base <= 16 && 5 <= bitSize <= 64 && DigitValue(c) < base
    ensures ParseUint([c], base, bitSize) == Ok(DigitValue(c))
  {
    var s := [c];
    ValueSnoc([], c, base);
    assert [] + [c] == s;
    assert IsDigits(s, base) && Value(s, base) == DigitValue(c);
    assert Pow2(4) == 16;
    Pow2Monotone(4, bitSize);
    assert Value(s, base) < Pow2(bitSize);
  }

  lemma ParseIntNotDigit(c: char, base: nat, bitSize: nat)
    requires 2 <= base <= 16 && 5 <= bitSize <= 64 && DigitValue(c) >= base
    ensures ParseInt([c], base, bitSize).Err?
  {
    if c == '+' || c == '-' {
      assert [c][1..] == [];
    } else {
      assert [c][0] == c && !IsDigits([c], base);
    }
  }

  /** `ParseInt` reads back a signed value printed with `%d`-style padding. */
  lemma SignedPaddedParseInt(x: int, base: nat, upper: bool, width: nat, bitSize: nat)
    requires 2 <= base <= 16 && 1 <= bitSize <= 64
    requires -(Pow2(bitSize - 1) as int) <= x < Pow2(bitSize - 1)
    ensures ParseInt(SignedPadded(x, base, upper, width), base, bitSize) == Ok(x)
  {
    Pow2Monotone(bitSize - 1, bitSize);
    if x < 0 {
      var w := if width == 0 then 0 else width - 1;
      PaddedParse(-x, base, upper, w, bitSize);
      ParseIntNegative(Padded(-x, base, upper, w), base, bitSize, -x);
    } else {
      PaddedParseInt(x, base, upper, width, bitSize);
    }
  }

  /** `Atoi` reads back `%d`. */
  lemma SignedDecAtoi(x: int)
    requires -(Pow2(63) as int) <= x < Pow2(63)
    ensures Atoi(SignedDec(x)) == Ok(x)
  {
    SignedPaddedParseInt(x, 10, false, 0, 64);
  }

  lemma Pow2Monotone(j: nat, k: nat)
    requires j <= k
    ensures Pow2(j) <= Pow2(k)
    decreases k
  {
    if j < k {
      Pow2Monotone(j, k - 1);
    }
  }

  /** `ParseBool` reads back the `1`/`0` that `%x` prints for `boolToInt`. */
  lemma ParseBoolDigit(b: bool)
    ensures ParseBool(if b then "1" else "0") == Ok(b)
  {
  }

  /** A single hex digit parses as itself. */
  lemma HexDigitParse(c: char, bitSize: nat)
    requires 4 <= bitSize <= 64 && DigitValue(c) < 16
    ensures ParseUint([c], 16, bitSize) == Ok(DigitValue(c))
  {
    ValueSnoc([], c, 16);
    assert [] + [c] == [c];
    Pow2Monotone(4, bitSize);
    assert Pow2(4) == 16;
  }

  // ---------------------------------------------------------------------
  // Fixed-width fields inside a command or a response.

  /** `r[i..i + width]` is a hex field holding `v`. */
  predicate HexAt(r: string, i: nat, width: nat, v: nat)
  {
    i + width <= |r| && ParseUint(r[i..i + width], 16, 64) == Ok(v)
  }

  /** `r[i..i + width]` is a decimal field holding `v`. */
  predicate DecAt(r: string, i: nat, width: nat, v: nat)
  {
    i + width <= |r| && ParseUint(r[i..i + width], 10, 64) == Ok(v)
  }

  lemma {:induction false} Pow16(w: nat)
    ensures Pow(16, w) == Pow2(4 * w)
  {
    if w > 0 {
      Pow16(w - 1);
      var k := 4 * (w - 1);
      assert Pow2(k + 4) == 2 * Pow2(k + 3);
      assert Pow2(k + 3) == 2 * Pow2(k + 2);
      assert Pow2(k + 2) == 2 * Pow2(k + 1);
      assert Pow2(k + 1) == 2 * Pow2(k);
    }
  }

  lemma {:induction false} Pow10Below16(w: nat)
    ensures Pow(10, w) <= Pow(16, w)
  {
    if w > 0 {
      Pow10Below16(w - 1);
    }
  }

  /** A `%0<width>x` field sits at its offset inside a concatenation. */
  lemma HexAtConcat(prefix: string, v: nat, width: nat, suffix: string)
    requires 1 <= width <= 16 && v < Pow(16, width)
    ensures |prefix + Hex(v, width) + suffix| == |prefix| + width + |suffix|
    ensures HexAt(prefix + Hex(v, width) + suffix, |prefix|, width, v)
  {
    HexLength(v, width);
    Pow16(width);
    Pow2Monotone(4 * width, 64);
    HexParse(v, width, 64);
    var r := prefix + Hex(v, width) + suffix;
    assert r[|prefix|..|prefix| + width] == Hex(v, width);
  }

  /** A `%0<width>d` field sits at its offset inside a concatenation. */
  lemma DecAtConcat(prefix: string, v: nat, width: nat, suffix: string)
    requires 1 <= width <= 16 && v < Pow(10, width)
    ensures |prefix + Dec(v, width) + suffix| == |prefix| + width + |suffix|
    ensures DecAt(prefix + Dec(v, width) + suffix, |prefix|, width, v)
  {
    DecLength(v, width);
    Pow10Below16(width);
    Pow16(width);
    Pow2Monotone(4 * width, 64);
    DecParse(v, width, 64);
    var r := prefix + Dec(v, width) + suffix;
    assert r[|prefix|..|prefix| + width] == Dec(v, width);
  }

  /** A `%0<width>x` rendering found at offset `i` is a hex field there. */
  lemma HexField(r: string, i: nat, width: nat, v: nat)
    requires 1 <= width <= 16 && v < Pow(16, width)
    requires i + width <= |r| && r[i..i + width] == Hex(v, width)
    ensures HexAt(r, i, width, v)
  {
    Pow16(width);
    Pow2Monotone(4 * width, 64);
    HexParse(v, width, 64);
  }

  /** A `%0<width>x` field appended to `head` sits right after it. */
  lemma HexAtAppend(head: string, v: nat, width: nat)
    requires 1 <= width <= 16 && v < Pow(16, width)
    ensures |head + Hex(v, width)| == |head| + width
    ensures HexAt(head + Hex(v, width), |head|, width, v)
  {
    HexAtConcat(head, v, width, "");
    assert head + Hex(v, width) + "" == head + Hex(v, width);
  }

  lemma DecAtAppend(head: string, v: nat, width: nat)
    requires 1 <= width <= 16 && v < Pow(10, width)
    ensures |head + Dec(v, width)| == |head| + width
    ensures DecAt(head + Dec(v, width), |head|, width, v)
  {
    DecAtConcat(head, v, width, "");
    assert head + Dec(v, width) + "" == head + Dec(v, width);
  }

  /** A field stays where it is when text is appended. */
  lemma HexAtExtend(r: string, suffix: string, i: nat, width: nat, v: nat)
    requires HexAt(r, i, width, v)
    ensures HexAt(r + suffix, i, width, v)
  {
    assert (r + suffix)[i..i + width] == r[i..i + width];
  }

  lemma DecAtExtend(r: string, suffix: string, i: nat, width: nat, v: nat)
    requires DecAt(r, i, width, v)
    ensures DecAt(r + suffix, i, width, v)
  {
    assert (r + suffix)[i..i + width] == r[i..i + width];
  }

  /** A `%0<width>d` rendering found at offset `i` is a decimal field there. */
  lemma DecField(r: string, i: nat, width: nat, v: nat)
    requires 1 <= width <= 16 && v < Pow(10, width)
    requires i + width <= |r| && r[i..i + width] == Dec(v, width)
    ensures DecAt(r, i, width, v)
  {
    Pow10Below16(width);
    Pow16(width);
    Pow2Monotone(4 * width, 64);
    DecParse(v, width, 64);
  }
}
