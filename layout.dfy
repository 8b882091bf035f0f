/// The shape shared by the `_AsString` serialisers: a command is a run of
/// fields, each a literal, a `%0<width>x` or a `%0<width>d` rendering. When
/// every number fits its width, each field can be read back at a fixed
/// offset, which is what the device (and the client's own decoders) do.
module Layout {
  import opened GoInts
  import opened Errors
  import opened GoFmt
  import opened GoStrconv
  import opened GoStrings

  datatype Field = Lit(s: string) | HexOf(v: nat, width: nat) | DecOf(v: nat, width: nat)

  /** The characters a field occupies when it fits; `%x` (width 0) of a
    * value below 16 is one digit. */
  function Width(f: Field): nat
  {
    match f
    case Lit(s) => |s|
    case HexOf(_, w) => if w == 0 then 1 else w
    case DecOf(_, w) => if w == 0 then 1 else w
  }

  function Text(f: Field): string
  {
    match f
    case Lit(s) => s
    case HexOf(v, w) => Hex(v, w)
    case DecOf(v, w) => Dec(v, w)
  }

  /** The number has no more digits than the field's width. */
  predicate Fits(f: Field)
  {
    match f
    case Lit(_) => true
    case HexOf(v, _) => Width(f) <= 16 && v < Pow(16, Width(f))
    case DecOf(v, _) => Width(f) <= 16 && v < Pow(10, Width(f))
  }

  predicate AllFit(fs: seq<Field>)
  {
    forall k :: 0 <= k < |fs| ==> Fits(fs[k])
  }

  /** The field `f` can be read at offset `i` of `r`. */
  predicate Holds(r: string, i: nat, f: Field)
  {
    match f
    case Lit(s) => i + |s| <= |r| && r[i..i + |s|] == s
    case HexOf(v, _) => HexAt(r, i, Width(f), v)
    case DecOf(v, _) => DecAt(r, i, Width(f), v)
  }

  function Render(fs: seq<Field>): string
  {
    if fs == [] then [] else Render(fs[..|fs| - 1]) + Text(fs[|fs| - 1])
  }

  /** Where field `k` starts when every field before it fits. */
  function Offset(fs: seq<Field>, k: nat): nat
    requires k <= |fs|
  {
    if k == 0 then 0 else Offset(fs, k - 1) + Width(fs[k - 1])
  }

  lemma TextFits(f: Field)
    requires Fits(f)
    ensures |Text(f)| == Width(f)
  {
    match f
    case Lit(_) =>
    case HexOf(v, w) => HexLength(v, Width(f));
    case DecOf(v, w) => DecLength(v, Width(f));
  }

  /** A field that fits can be read back where it was written. */
  lemma TextHolds(prefix: string, f: Field, suffix: string)
    requires Fits(f)
    ensures Holds(prefix + Text(f) + suffix, |prefix|, f)
  {
    var r := prefix + Text(f) + suffix;
    TextFits(f);
    assert r[|prefix|..|prefix| + |Text(f)|] == Text(f);
    match f
    case Lit(_) =>
    case HexOf(v, w) => HexField(r, |prefix|, Width(f), v);
    case DecOf(v, w) => DecField(r, |prefix|, Width(f), v);
  }

  /** What a field says at an offset depends only on the characters there. */
  lemma HoldsExtend(r: string, suffix: string, i: nat, f: Field)
    requires Holds(r, i, f)
    ensures Holds(r + suffix, i, f)
  {
    var w := Width(f);
    match f
    case Lit(s) => assert (r + suffix)[i..i + |s|] == r[i..i + |s|];
    case HexOf(_, _) => assert (r + suffix)[i..i + w] == r[i..i + w];
    case DecOf(_, _) => assert (r + suffix)[i..i + w] == r[i..i + w];
  }

  /** Every field of a layout whose numbers fit sits at its offset, and the
    * whole command is as long as the widths add up to. */
  lemma {:induction false} RenderLayout(fs: seq<Field>)
    requires AllFit(fs)
    ensures |Render(fs)| == Offset(fs, |fs|)
    ensures forall k :: 0 <= k < |fs| ==> Holds(Render(fs), Offset(fs, k), fs[k])
  {
    if fs != [] {
      var n := |fs| - 1;
      var init := fs[..n];
      AllFitPrefix(fs);
      RenderLayout(init);
      RenderLast(fs);
      assert Render(fs) == Render(init) + Text(fs[n]);
      forall k | 0 <= k < n
        ensures Holds(Render(fs), Offset(fs, k), fs[k])
      {
        assert init[k] == fs[k];
        RenderEarlier(fs, k, Render(init), Text(fs[n]));
      }
    }
  }

  lemma AllFitPrefix(fs: seq<Field>)
    requires fs != [] && AllFit(fs)
    ensures AllFit(fs[..|fs| - 1]) && Fits(fs[|fs| - 1])
  {
    var init := fs[..|fs| - 1];
    forall k | 0 <= k < |init| ensures Fits(init[k]) { assert init[k] == fs[k]; }
  }

  /** The last field of a layout sits after all the others. */
  lemma RenderLast(fs: seq<Field>)
    requires fs != [] && Fits(fs[|fs| - 1])
    requires |Render(fs[..|fs| - 1])| == Offset(fs[..|fs| - 1], |fs| - 1)
    ensures |Render(fs)| == Offset(fs, |fs|)
    ensures Holds(Render(fs), Offset(fs, |fs| - 1), fs[|fs| - 1])
  {
    var n := |fs| - 1;
    var head := Render(fs[..n]);
    OffsetPrefix(fs, n);
    TextHolds(head, fs[n], []);
    assert head + Text(fs[n]) + [] == Render(fs);
    TextFits(fs[n]);
  }

  /** An earlier field stays where it was when the last one is appended. */
  lemma RenderEarlier(fs: seq<Field>, k: nat, head: string, tail: string)
    requires k < |fs| - 1
    requires Holds(head, Offset(fs[..|fs| - 1], k), fs[k])
    ensures Holds(head + tail, Offset(fs, k), fs[k])
  {
    OffsetPrefix(fs, k);
    HoldsExtend(head, tail, Offset(fs, k), fs[k]);
  }

  lemma {:induction false} OffsetPrefix(fs: seq<Field>, k: nat)
    requires k < |fs|
    ensures Offset(fs[..|fs| - 1], k) == Offset(fs, k)
  {
    if k > 0 {
      OffsetPrefix(fs, k - 1);
      assert fs[..|fs| - 1][k - 1] == fs[k - 1];
    }
  }

  /** Every rendering is at least as long as its layout, and starts with
    * its first field. */
  lemma {:induction false} RenderAtLeast(fs: seq<Field>)
    ensures |Render(fs)| >= Offset(fs, |fs|)
    ensures fs != [] ==> |Render(fs)| >= |Text(fs[0])| && Render(fs)[..|Text(fs[0])|] == Text(fs[0])
  {
    if fs != [] {
      var n := |fs| - 1;
      RenderAtLeast(fs[..n]);
      OffsetPrefix(fs, n);
      var t := Text(fs[n]);
      assert |t| >= Width(fs[n]) by {
        match fs[n]
        case Lit(_) =>
        case HexOf(v, w) => assert |Padded(v, 16, false, w)| >= 1;
        case DecOf(v, w) => assert |Padded(v, 10, false, w)| >= 1;
      }
      if n > 0 {
        assert fs[..n][0] == fs[0];
        assert Render(fs)[..|Text(fs[0])|] == Render(fs[..n])[..|Text(fs[0])|];
      } else {
        assert fs[..n] == [];
      }
    }
  }

  /** The layout facts, for a caller that does not yet know whether its
    * numbers fit. */
  lemma Shape(fs: seq<Field>)
    ensures |Render(fs)| >= Offset(fs, |fs|)
    ensures fs != [] ==> |Render(fs)| >= |Text(fs[0])| && Render(fs)[..|Text(fs[0])|] == Text(fs[0])
    ensures AllFit(fs) ==> |Render(fs)| == Offset(fs, |fs|)
    ensures AllFit(fs) ==> forall k :: 0 <= k < |fs| ==> Holds(Render(fs), Offset(fs, k), fs[k])
    ensures forall k {:trigger Offset(fs, k)} :: 0 < k <= |fs| ==> Offset(fs, k) == Offset(fs, k - 1) + Width(fs[k - 1])
  {
    RenderAtLeast(fs);
    if AllFit(fs) {
      RenderLayout(fs);
    }
  }

  // ---------------------------------------------------------------------
  // Commands whose fields are separated by single spaces.

  /** Words joined by single spaces, which a split on spaces takes apart. */
  function Words(words: seq<string>): (r: string)
    requires |words| >= 1 && forall i :: 0 <= i < |words| ==> ' ' !in words[i]
    ensures Split(r, ' ') == words
  {
    SplitJoin(words, ' ');
    Join(words, ' ')
  }

  /** `%x` of each value: words with no space, each of which a hex parse
    * reads back. */
  function HexWords(values: seq<nat>): (r: seq<string>)
    ensures |r| == |values|
    ensures forall i :: 0 <= i < |r| ==> ' ' !in r[i]
    ensures forall i, bitSize :: 0 <= i < |r| && 1 <= bitSize <= 64 && values[i] < Pow2(bitSize) ==>
              ParseUint(r[i], 16, bitSize) == Ok(values[i])
  {
    if values == [] then []
    else
      NumeralNoSpace(values[0]);
      assert forall bitSize :: 1 <= bitSize <= 64 && values[0] < Pow2(bitSize) ==>
        ParseUint(Hex(values[0], 0), 16, bitSize) == Ok(values[0]) by {
        forall bitSize | 1 <= bitSize <= 64 && values[0] < Pow2(bitSize) {
          HexParse(values[0], 0, bitSize);
        }
      }
      [Hex(values[0], 0)] + HexWords(values[1..])
  }

  /** A command name and hex values, separated by single spaces: splitting
    * on spaces gives the name back and each value reads back in hex. */
  function SpacedHex(name: string, values: seq<nat>): (r: string)
    requires ' ' !in name
    ensures |Split(r, ' ')| == 1 + |values| && Split(r, ' ')[0] == name
    ensures forall i, bitSize :: 0 <= i < |values| && 1 <= bitSize <= 64 && values[i] < Pow2(bitSize) ==>
              ParseUint(Split(r, ' ')[i + 1], 16, bitSize) == Ok(values[i])
  {
    var hex := HexWords(values);
    var words := [name] + hex;
    assert forall i :: 0 <= i < |hex| ==> words[i + 1] == hex[i];
    assert forall i :: 0 <= i < |words| ==> ' ' !in words[i] by {
      forall i | 0 <= i < |words| ensures ' ' !in words[i] {
        if i > 0 { assert words[i] == hex[i - 1]; }
      }
    }
    Words(words)
  }

  lemma {:induction false} NumeralNoSpace(v: nat)
    ensures ' ' !in Numeral(v, 16, false)
    decreases v
  {
    if v >= 16 {
      NumeralNoSpace(v / 16);
    }
  }
}
