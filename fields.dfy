/// The fixed-position reads the `Enquire*` decoders make on a response body:
/// `strconv.ParseUint(val[lo:hi], base, bitSize)`, where a slice outside the
/// body is a run-time panic.
module Fields {
  import opened GoInts
  import opened Errors
  import opened GoFmt
  import opened GoStrconv
  import opened GoStrings

  /** A `bitSize`-bit parse succeeds exactly when the 64-bit one does and the
    * value is below `2^bitSize`. */
  lemma ParseNarrow(s: string, base: nat, bitSize: nat)
    requires 2 <= base <= 36 && 1 <= bitSize <= 64
    ensures ParseUint(s, base, bitSize).Ok? <==> ParseUint(s, base, 64).Ok? && ParseUint(s, base, 64).value < Pow2(bitSize)
    ensures ParseUint(s, base, bitSize).Ok? ==> ParseUint(s, base, bitSize) == ParseUint(s, base, 64)
  {
    Pow2Monotone(bitSize, 64);
  }

  /** `strconv.ParseUint(val[lo:hi], 16, bitSize)`. */
  function HexSlice(val: string, lo: nat, hi: nat, bitSize: nat): (r: Result<nat>)
    requires 1 <= bitSize <= 64
    ensures !(lo <= hi <= |val|) ==> r == Err(IndexOutOfRange)
    ensures lo <= hi <= |val| && r.Err? ==> r.error == NumError
    ensures r.Ok? ==> lo <= hi && HexAt(val, lo, hi - lo, r.value) && r.value < Pow2(bitSize)
    ensures forall v: nat :: lo <= hi && HexAt(val, lo, hi - lo, v) && v < Pow2(bitSize) ==> r == Ok(v)
  {
    if lo <= hi <= |val| then
      ParseNarrow(val[lo..hi], 16, bitSize);
      assert val[lo..lo + (hi - lo)] == val[lo..hi];
      ParseUint(val[lo..hi], 16, bitSize)
    else Err(IndexOutOfRange)
  }

  /** `strconv.ParseUint(val[lo:hi], 10, bitSize)`. */
  function DecSlice(val: string, lo: nat, hi: nat, bitSize: nat): (r: Result<nat>)
    requires 1 <= bitSize <= 64
    ensures !(lo <= hi <= |val|) ==> r == Err(IndexOutOfRange)
    ensures lo <= hi <= |val| && r.Err? ==> r.error == NumError
    ensures r.Ok? ==> lo <= hi && DecAt(val, lo, hi - lo, r.value) && r.value < Pow2(bitSize)
    ensures forall v: nat :: lo <= hi && DecAt(val, lo, hi - lo, v) && v < Pow2(bitSize) ==> r == Ok(v)
  {
    if lo <= hi <= |val| then
      ParseNarrow(val[lo..hi], 10, bitSize);
      assert val[lo..lo + (hi - lo)] == val[lo..hi];
      ParseUint(val[lo..hi], 10, bitSize)
    else Err(IndexOutOfRange)
  }

  /** `strconv.ParseBool(string(val[i]))`. */
  function BoolAt(val: string, i: nat): (r: Result<bool>)
    ensures i >= |val| ==> r == Err(IndexOutOfRange)
    ensures i < |val| ==> r == ParseBool([val[i]])
  {
    var c :- CharAt(val, i);
    ParseBool(c)
  }

  /** A field read in a suffix is the same field, further along, in the
    * whole string. */
  lemma HexAtShift(r: string, k: nat, i: nat, width: nat, v: nat)
    requires k <= |r|
    ensures HexAt(r[k..], i, width, v) <==> HexAt(r, k + i, width, v)
  {
    if k + i + width <= |r| {
      assert r[k..][i..i + width] == r[k + i..k + i + width];
    }
  }

  /** A hex field that fits the bit size is what `HexSlice` reads. */
  lemma HexSliceOf(val: string, lo: nat, width: nat, v: nat, bitSize: nat)
    requires 1 <= bitSize <= 64 && HexAt(val, lo, width, v) && v < Pow2(bitSize)
    ensures HexSlice(val, lo, lo + width, bitSize) == Ok(v)
  {
    assert (lo + width) - lo == width;
  }

  /** Equal slices read as equal hex fields. */
  lemma HexSliceSame(a: string, i: nat, b: string, k: nat, width: nat, bitSize: nat)
    requires 1 <= bitSize <= 64 && i + width <= |a| && k + width <= |b|
    requires a[i..i + width] == b[k..k + width]
    ensures HexSlice(a, i, i + width, bitSize) == HexSlice(b, k, k + width, bitSize)
  {
  }

  lemma DecAtShift(r: string, k: nat, i: nat, width: nat, v: nat)
    requires k <= |r|
    ensures DecAt(r[k..], i, width, v) <==> DecAt(r, k + i, width, v)
  {
    if k + i + width <= |r| {
      assert r[k..][i..i + width] == r[k + i..k + i + width];
    }
  }

  /** A one-digit hex field is that digit's value. */
  lemma HexAtOne(r: string, i: nat, v: nat)
    requires i < |r|
    ensures HexAt(r, i, 1, v) <==> DigitValue(r[i]) < 16 && v == DigitValue(r[i])
  {
    assert r[i..i + 1] == [r[i]];
    if DigitValue(r[i]) < 16 {
      HexDigitParse(r[i], 64);
    }
  }

  /** A digit string is below `base` to the power of its length. */
  lemma {:induction false} ValueBound(s: string, base: nat)
    requires 2 <= base <= 16 && IsDigits(s, base)
    ensures Value(s, base) < Pow(base, |s|)
  {
    if s != [] {
      var init := s[..|s| - 1];
      DigitsPrefix(s, base);
      ValueBound(init, base);
      AppendDigitBound(Value(init, base), DigitValue(s[|s| - 1]), Pow(base, |init|), base);
    }
  }

  lemma DigitsPrefix(s: string, base: nat)
    requires s != [] && IsDigits(s, base)
    ensures IsDigits(s[..|s| - 1], base) && DigitValue(s[|s| - 1]) < base
  {
    var init := s[..|s| - 1];
    forall i | 0 <= i < |init| ensures DigitValue(init[i]) < base { assert init[i] == s[i]; }
  }

  lemma AppendDigitBound(a: nat, d: nat, p: nat, base: nat)
    requires a < p && d < base
    ensures a * base + d < base * p
  {
    MulMonotone(a + 1, p, base);
  }

  /** A `width`-digit hex field holds a value below `16^width`. */
  lemma HexAtBound(r: string, i: nat, width: nat, v: nat)
    requires HexAt(r, i, width, v)
    ensures v < Pow(16, width)
  {
    ValueBound(r[i..i + width], 16);
  }

  lemma DecAtBound(r: string, i: nat, width: nat, v: nat)
    requires DecAt(r, i, width, v)
    ensures v < Pow(10, width)
  {
    ValueBound(r[i..i + width], 10);
  }

  /** Every one-character field of `val` is its hex digit, if it is one. */
  lemma DigitFields(val: string)
    ensures forall i: nat, v: nat {:trigger HexAt(val, i, 1, v)} :: i < |val| ==>
              (HexAt(val, i, 1, v) <==> DigitValue(val[i]) < 16 && v == DigitValue(val[i]))
  {
    forall i: nat, v: nat | i < |val|
      ensures HexAt(val, i, 1, v) <==> DigitValue(val[i]) < 16 && v == DigitValue(val[i])
    {
      HexAtOne(val, i, v);
    }
  }

  // ---------------------------------------------------------------------
  // Runs of `%02x` bytes

  /** `%02x` of each byte, one after the other. */
  function HexBytes(values: seq<uint8>): (r: string)
    ensures |r| == 2 * |values|
  {
    PowValues();
    if values == [] then ""
    else
      HexLength(values[0], 2);
      Hex(values[0], 2) + HexBytes(values[1..])
  }

  /** Byte `j` sits at offset `2 * j`. */
  lemma {:induction false} HexBytesFields(values: seq<uint8>)
    ensures forall j :: 0 <= j < |values| ==> HexAt(HexBytes(values), 2 * j, 2, values[j])
  {
    if values != [] {
      var head := Hex(values[0], 2);
      var rest := HexBytes(values[1..]);
      HexBytesFields(values[1..]);
      PowValues();
      HexAtConcat("", values[0], 2, rest);
      assert "" + head + rest == HexBytes(values);
      HexLength(values[0], 2);
      forall j | 1 <= j < |values|
        ensures HexAt(HexBytes(values), 2 * j, 2, values[j])
      {
        assert values[1..][j - 1] == values[j];
        assert HexAt(rest, 2 * (j - 1), 2, values[j]);
        HexAtShift(HexBytes(values), 2, 2 * (j - 1), 2, values[j]);
        assert HexBytes(values)[2..] == rest;
      }
    }
  }

  /** Byte `j` of a body that starts with `HexBytes(values)` is what the
    * decoders' `ParseUint(val[2j:2j+2], 16, 8)` reads. */
  lemma HexByteAt(values: seq<uint8>, tail: string, j: nat)
    requires j < |values|
    ensures HexSlice(HexBytes(values) + tail, 2 * j, 2 * j + 2, 8) == Ok(values[j] as nat)
  {
    var val := HexBytes(values) + tail;
    var v: nat := values[j];
    HexBytesFields(values);
    assert HexAt(HexBytes(values), 2 * j, 2, v);
    assert val[2 * j..2 * j + 2] == HexBytes(values)[2 * j..2 * j + 2];
    assert HexAt(val, 2 * j, (2 * j + 2) - 2 * j, v);
    assert v < Pow2(8) by { Pow2Eight(); }
  }

  /** Byte `j` of a run of hex bytes reads back as itself. */
  lemma HexByteOf(values: seq<uint8>, j: nat)
    requires j < |values|
    ensures HexSlice(HexBytes(values), 2 * j, 2 * j + 2, 8) == Ok(values[j] as nat)
  {
    HexByteAt(values, "", j);
    assert HexBytes(values) + "" == HexBytes(values);
  }

  /** `prefix` and one `%02x` per byte: each byte reads back at its offset
    * after the prefix. */
  function BytesCommand(prefix: string, values: seq<uint8>): (r: string)
    ensures |r| == |prefix| + 2 * |values| && r[..|prefix|] == prefix
    ensures forall j :: 0 <= j < |values| ==> HexSlice(r[|prefix|..], 2 * j, 2 * j + 2, 8) == Ok(values[j] as nat)
  {
    var r := prefix + HexBytes(values);
    assert r[..|prefix|] == prefix && r[|prefix|..] == HexBytes(values);
    forall j | 0 <= j < |values| ensures HexSlice(r[|prefix|..], 2 * j, 2 * j + 2, 8) == Ok(values[j] as nat) {
      HexByteOf(values, j);
    }
    r
  }

  /** A numeral holds no character that is not one of its digits. */
  lemma NumeralFree(n: nat, base: nat, width: nat, c: char)
    requires 2 <= base <= 16 && DigitValue(c) >= base
    ensures c !in Padded(n, base, false, width)
  {
    PaddedValue(n, base, false, width);
  }

  lemma {:induction false} HexBytesFree(values: seq<uint8>, c: char)
    requires DigitValue(c) >= 16
    ensures c !in HexBytes(values)
  {
    if values != [] {
      HexBytesFree(values[1..], c);
      NumeralFree(values[0], 16, 2, c);
    }
  }

  // ---------------------------------------------------------------------
  // Runs of one-character booleans

  /** `strconv.ParseBool(string(val[i]))` for `i` from 0 to `n - 1`, in
    * order: the first character that is missing or not a boolean decides
    * the error. */
  function BoolsAt(val: string, n: nat): (r: Result<seq<bool>>)
    ensures r.Ok? <==> n <= |val| && forall i :: 0 <= i < n ==> ParseBool([val[i]]).Ok?
    ensures r.Ok? ==> |r.value| == n && forall i :: 0 <= i < n ==> ParseBool([val[i]]) == Ok(r.value[i])
    ensures r.Err? && n <= |val| ==> r.error == NumError
  {
    if n == 0 then Ok([])
    else
      var init :- BoolsAt(val, n - 1);
      var b :- BoolAt(val, n - 1);
      Ok(init + [b])
  }

  // ---------------------------------------------------------------------
  // Commands that name a layer

  /** `prefix` and `%x` of a layer number. */
  function LayerCommand(prefix: string, layer: uint8): (r: string)
    ensures |r| >= |prefix| + 1 && r[..|prefix|] == prefix && ParseUint(r[|prefix|..], 16, 8) == Ok(layer as nat)
  {
    Pow2Eight();
    HexParse(layer, 0, 8);
    assert (prefix + Hex(layer, 0))[|prefix|..] == Hex(layer, 0);
    prefix + Hex(layer, 0)
  }

  /** `prefix`, `%01x` of the target and `%01x` of the setting: for values
    * below 16, two hex digits at fixed places. */
  function TwoDigitCommand(prefix: string, target: uint8, setting: nat): (r: string)
    ensures |r| >= |prefix| + 2 && r[..|prefix|] == prefix
    ensures target < 16 ==> HexAt(r, |prefix|, 1, target)
    ensures target < 16 && setting < 16 ==> |r| == |prefix| + 2 && HexAt(r, |prefix| + 1, 1, setting)
  {
    PowValues();
    var head := prefix + Hex(target, 1);
    var r := head + Hex(setting, 1);
    assert r[..|prefix|] == prefix;
    assert |Hex(target, 1)| >= 1 && |Hex(setting, 1)| >= 1;
    if target < 16 then
      HexAtConcat(prefix, target, 1, Hex(setting, 1));
      if setting < 16 then
        HexAtConcat(head, setting, 1, "");
        assert head + Hex(setting, 1) + "" == r;
        r
      else r
    else r
  }

  /** `prefix`, `%x` of a layer (or source), `%02x` of a byte such as a
    * field number or a profile, then `tail`. */
  function FieldCommand(prefix: string, layer: uint8, field: uint8, tail: string): string
  {
    prefix + Hex(layer, 0) + Hex(field, 2) + tail
  }

  /** The field is always two hex digits, right after the layer; a layer
    * below 16 is one hex digit. */
  lemma FieldCommandFields(prefix: string, layer: uint8, field: uint8, tail: string)
    ensures var r := FieldCommand(prefix, layer, field, tail);
      && |r| == |prefix| + |Hex(layer, 0)| + 2 + |tail|
      && r[..|prefix|] == prefix
      && ParseUint(r[|prefix|..|prefix| + |Hex(layer, 0)|], 16, 8) == Ok(layer as nat)
      && HexAt(r, |prefix| + |Hex(layer, 0)|, 2, field)
      && r[|prefix| + |Hex(layer, 0)| + 2..] == tail
      && (layer < 16 ==> |Hex(layer, 0)| == 1 && HexAt(r, |prefix|, 1, layer) && HexAt(r, |prefix| + 1, 2, field))
  {
    FieldAfterLayer(prefix, layer, field, tail);
    if layer < 16 {
      ShortLayerField(prefix, layer, Hex(field, 2) + tail);
      assert FieldCommand(prefix, layer, field, tail) == prefix + Hex(layer, 0) + (Hex(field, 2) + tail);
    }
  }

  lemma FieldAfterLayer(prefix: string, layer: uint8, field: uint8, tail: string)
    ensures var r := FieldCommand(prefix, layer, field, tail);
      && |r| == |prefix| + |Hex(layer, 0)| + 2 + |tail|
      && r[..|prefix|] == prefix
      && ParseUint(r[|prefix|..|prefix| + |Hex(layer, 0)|], 16, 8) == Ok(layer as nat)
      && HexAt(r, |prefix| + |Hex(layer, 0)|, 2, field)
      && r[|prefix| + |Hex(layer, 0)| + 2..] == tail
  {
    PowValues();
    var head := prefix + Hex(layer, 0);
    HexAtAppend(head, field, 2);
    var h2 := head + Hex(field, 2);
    HexAtExtend(h2, tail, |head|, 2, field);
    var r := h2 + tail;
    assert r[..|prefix|] == prefix;
    assert r[|h2|..] == tail;
    LayerParse(prefix, layer, Hex(field, 2) + tail);
    assert r == prefix + Hex(layer, 0) + (Hex(field, 2) + tail);
  }

  /** The layer reads back from where it was written. */
  lemma LayerParse(prefix: string, layer: uint8, rest: string)
    ensures var r := prefix + Hex(layer, 0) + rest;
      ParseUint(r[|prefix|..|prefix| + |Hex(layer, 0)|], 16, 8) == Ok(layer as nat)
  {
    Pow2Eight();
    HexParse(layer, 0, 8);
    var r := prefix + Hex(layer, 0) + rest;
    assert r[|prefix|..|prefix| + |Hex(layer, 0)|] == Hex(layer, 0);
  }

  /** `%x` of a layer below 16 is one hex digit. */
  lemma ShortLayerField(prefix: string, layer: uint8, rest: string)
    requires layer < 16
    ensures |Hex(layer, 0)| == 1 && HexAt(prefix + Hex(layer, 0) + rest, |prefix|, 1, layer)
  {
    PowValues();
    assert Hex(layer, 0) == Hex(layer, 1);
    HexAtAppend(prefix, layer, 1);
    HexAtExtend(prefix + Hex(layer, 1), rest, |prefix|, 1, layer);
  }
}
