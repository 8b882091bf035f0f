/// Go's fixed-width integer types, the truncating conversions the client
/// applies between them, and the single-bit test that `x & (1 << k) != 0`
/// performs on a two's-complement value.
module GoInts {

  type uint8 = x: int | 0 <= x < 0x100
  type uint16 = x: int | 0 <= x < 0x1_0000
  type uint32 = x: int | 0 <= x < 0x1_0000_0000
  type uint64 = x: int | 0 <= x < 0x1_0000_0000_0000_0000
  type int8 = x: int | -0x80 <= x < 0x80
  type int16 = x: int | -0x8000 <= x < 0x8000
  type int32 = x: int | -0x8000_0000 <= x < 0x8000_0000
  type int64 = x: int | -0x8000_0000_0000_0000 <= x < 0x8000_0000_0000_0000

  /** A Go pointer that may be nil, when only the pointed-to value matters. */
  datatype Option<T> = None | Some(value: T)

  function Pow2(k: nat): (r: nat)
    ensures r >= 1
  {
    if k == 0 then 1 else 2 * Pow2(k - 1)
  }

  /** The powers of two the client's field widths use. */
  lemma Pow2Values()
    ensures Pow2(4) == 0x10 && Pow2(8) == 0x100 && Pow2(15) == 0x8000 && Pow2(16) == 0x1_0000
    ensures Pow2(31) == 0x8000_0000 && Pow2(32) == 0x1_0000_0000
    ensures Pow2(63) == 0x8000_0000_0000_0000 && Pow2(64) == 0x1_0000_0000_0000_0000
  {
    Pow2Sixteen();
    Pow2ThirtyTwo();
    Pow2SixtyFour();
  }

  /** The bounds of 4- and 8-bit fields alone. */
  lemma Pow2Eight()
    ensures Pow2(4) == 0x10 && Pow2(8) == 0x100
  {
    assert Pow2(4) == 0x10;
    Pow2Add(4, 4);
  }

  /** The bounds of 16-bit fields, signed and unsigned. */
  lemma Pow2Sixteen()
    ensures Pow2(4) == 0x10 && Pow2(8) == 0x100 && Pow2(15) == 0x8000 && Pow2(16) == 0x1_0000
  {
    Pow2Eight();
    Pow2Add(8, 8);
    assert Pow2(16) == 2 * Pow2(15);
  }

  /** The bounds of 32-bit fields, signed and unsigned. */
  lemma Pow2ThirtyTwo()
    ensures Pow2(31) == 0x8000_0000 && Pow2(32) == 0x1_0000_0000
  {
    Pow2Sixteen();
    Pow2Add(16, 16);
    assert Pow2(32) == 2 * Pow2(31);
  }

  /** The bounds of 64-bit fields, signed and unsigned. */
  lemma Pow2SixtyFour()
    ensures Pow2(63) == 0x8000_0000_0000_0000 && Pow2(64) == 0x1_0000_0000_0000_0000
  {
    Pow2ThirtyTwo();
    Pow2Add(32, 32);
    assert Pow2(64) == 2 * Pow2(63);
  }

  lemma {:induction false} Pow2Add(j: nat, k: nat)
    ensures Pow2(j + k) == Pow2(j) * Pow2(k)
    decreases k
  {
    if k > 0 {
      Pow2Add(j, k - 1);
    }
  }

  /** `x & (1 << k) != 0`: the k-th binary digit. Dafny's `/` rounds down
    * for a positive divisor, so this is the two's-complement bit also for a
    * negative `x`. */
  predicate Bit(x: int, k: nat)
    decreases k
  {
    if k == 0 then x % 2 == 1 else Bit(x / 2, k - 1)
  }

  /** Above the low `j` bits, `b + 2^j * m` has the bits of `m`. */
  lemma {:induction false} BitAbove(b: int, m: int, j: nat, k: nat)
    requires 0 <= b < Pow2(j)
    ensures Bit(b + Pow2(j) * m, j + k) == Bit(m, k)
    decreases j
  {
    if j == 0 {
      assert b == 0;
    } else {
      var p := Pow2(j - 1);
      assert b + Pow2(j) * m == b % 2 + 2 * (b / 2 + p * m);
      assert (b + Pow2(j) * m) / 2 == b / 2 + p * m;
      BitAbove(b / 2, m, j - 1, k);
    }
  }

  /** The low `j` bits of `b + 2^j * m` are those of `b`. */
  lemma {:induction false} BitBelow(b: int, m: int, j: nat, i: nat)
    requires 0 <= b < Pow2(j) && i < j
    ensures Bit(b + Pow2(j) * m, i) == Bit(b, i)
    decreases j
  {
    var p := Pow2(j - 1);
    assert b + Pow2(j) * m == b % 2 + 2 * (b / 2 + p * m);
    if i > 0 {
      assert (b + Pow2(j) * m) / 2 == b / 2 + p * m;
      BitBelow(b / 2, m, j - 1, i - 1);
    }
  }

  /** A value below `2^k` has no bit `k` or higher. */
  lemma {:induction false} BitClear(x: int, k: nat)
    requires 0 <= x < Pow2(k)
    ensures !Bit(x, k)
    decreases k
  {
    if k > 0 {
      BitClear(x / 2, k - 1);
    }
  }

  /** Go's `uint8(x)`: keeps the low 8 bits. */
  function ToUint8(x: int): (r: uint8)
    ensures (x - r) % 0x100 == 0
  {
    x % 0x100
  }

  /** Go's `int8(x)`: keeps the low 8 bits, read as two's complement. */
  function ToInt8(x: int): (r: int8)
    ensures (x - r) % 0x100 == 0
    ensures -0x80 <= x < 0x80 ==> r == x
  {
    (x + 0x80) % 0x100 - 0x80
  }

  /** Go's `int16(x)`: keeps the low 16 bits, read as two's complement. */
  function ToInt16(x: int): (r: int16)
    ensures (x - r) % 0x1_0000 == 0
    ensures -0x8000 <= x < 0x8000 ==> r == x
  {
    (x + 0x8000) % 0x1_0000 - 0x8000
  }
}
