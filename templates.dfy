/// `templates.go`: loading, preloading and erasing the template on a layer
/// (`R0`, `R7`, `A`), positioning it (`G`), and the decoders of the
/// matching enquiries.
module Templates {
  import opened GoInts
  import opened Errors
  import opened GoFmt
  import opened GoStrconv
  import opened GoStrings
  import opened OxtelTypes
  import opened Layout
  import opened Fields

  /** `prefix`, the layer in hex and the template name. */
  function LayerNameCommand(prefix: string, layer: OxtelLayer, templateName: string): (r: string)
    ensures |r| >= |prefix| + 1 && r[..|prefix|] == prefix
    ensures layer < 16 ==> HexAt(r, |prefix|, 1, layer) && r[|prefix| + 1..] == templateName
  {
    PowValues();
    var r := prefix + Hex(layer, 0) + templateName;
    assert r[..|prefix|] == prefix;
    if layer < 16 then
      HexAtConcat(prefix, layer, 1, templateName);
      assert Hex(layer, 0) == Hex(layer, 1);
      assert r[|prefix| + 1..] == templateName;
      r
    else r
  }

  /** `LoadImage_AsString`: `R0`, the layer in hex and the template name. */
  function LoadImageAsString(layer: OxtelLayer, templateName: string): (r: string)
    ensures |r| >= 3 && r[..2] == "R0"
    ensures layer < 16 ==> HexAt(r, 2, 1, layer) && r[3..] == templateName
  {
    LayerNameCommand("R0", layer, templateName)
  }

  /** `PreloadImage_AsString`: `R7`, the layer in hex and the template name. */
  function PreloadImageAsString(layer: OxtelLayer, templateName: string): (r: string)
    ensures |r| >= 3 && r[..2] == "R7"
    ensures layer < 16 ==> HexAt(r, 2, 1, layer) && r[3..] == templateName
  {
    LayerNameCommand("R7", layer, templateName)
  }

  /** `EnquireLoadImage_AsString`: `R0` and the layer in hex. */
  function EnquireLoadImageAsString(layer: OxtelLayer): (r: string)
    ensures |r| >= 3 && r[..2] == "R0" && ParseUint(r[2..], 16, 8) == Ok(layer as nat)
  {
    LayerCommand("R0", layer)
  }

  /** `EnquirePreloadImage_AsString`: `R7` and the layer in hex. */
  function EnquirePreloadImageAsString(layer: OxtelLayer): (r: string)
    ensures |r| >= 3 && r[..2] == "R7" && ParseUint(r[2..], 16, 8) == Ok(layer as nat)
  {
    LayerCommand("R7", layer)
  }

  /** `EraseStore_AsString`: `A` and the layer in hex. */
  function EraseStoreAsString(layer: OxtelLayer): (r: string)
    ensures |r| >= 2 && r[..1] == "A" && ParseUint(r[1..], 16, 8) == Ok(layer as nat)
  {
    LayerCommand("A", layer)
  }

  /** `EnquireImagePosition_AsString`: `G` and the layer in hex. */
  function EnquireImagePositionAsString(layer: OxtelLayer): (r: string)
    ensures |r| >= 2 && r[..1] == "G" && ParseUint(r[1..], 16, 8) == Ok(layer as nat)
  {
    LayerCommand("G", layer)
  }

  /** The decoding `EnquireLoadImage` and `EnquirePreloadImage` both apply:
    * the layer is the hex digit `[0]` and the name the rest. */
  function DecodeLayerTemplate(val: string): (r: Result<LayerTemplateResponse>)
    ensures r.Ok? <==> |val| >= 1 && DigitValue(val[0]) < 16
    ensures r.Ok? ==> r.value == LayerTemplateResponse(DigitValue(val[0]), val[1..])
    ensures |val| == 0 ==> r == Err(IndexOutOfRange)
    ensures |val| >= 1 && DigitValue(val[0]) >= 16 ==> r == Err(NumError)
  {
    Pow2Eight();
    DigitFields(val);
    if |val| >= 1 then
      assert HexAt(val, 0, 1, DigitValue(val[0])) <==> DigitValue(val[0]) < 16;
      var returnLayer :- HexSlice(val, 0, 1, 8);
      Ok(LayerTemplateResponse(returnLayer, val[1..]))
    else Err(IndexOutOfRange)
  }

  /** The body of a load or preload command reads back as its layer and
    * name, for a layer below 16. */
  lemma LayerTemplateRoundTrip(layer: OxtelLayer, templateName: string)
    requires layer < 16
    ensures DecodeLayerTemplate(LoadImageAsString(layer, templateName)[2..]) == Ok(LayerTemplateResponse(layer, templateName))
    ensures DecodeLayerTemplate(PreloadImageAsString(layer, templateName)[2..]) == Ok(LayerTemplateResponse(layer, templateName))
  {
    var a := LoadImageAsString(layer, templateName);
    var b := PreloadImageAsString(layer, templateName);
    HexAtOne(a, 2, layer);
    HexAtOne(b, 2, layer);
    assert a[2..][0] == a[2] && a[2..][1..] == a[3..];
    assert b[2..][0] == b[2] && b[2..][1..] == b[3..];
  }

  /** From layer 16 on, `%x` prints two digits and the body no longer reads
    * back: the decoder takes the high digit as the layer and the low digit
    * as the start of the name. */
  lemma LayerTemplateWideLayer(layer: OxtelLayer, templateName: string)
    requires layer >= 16
    ensures var r := DecodeLayerTemplate(LoadImageAsString(layer, templateName)[2..]);
      r.Ok? && r.value.layer as nat == layer as nat / 16 && r.value.filename != templateName
  {
    var h := Hex(layer, 0);
    WideLayerDigits(layer);
    var body := LoadImageAsString(layer, templateName)[2..];
    assert body == h + templateName;
    assert body[0] == h[0] && |body[1..]| == |templateName| + 1;
  }

  /** A layer from 16 on prints as two hex digits, the first of them the
    * layer divided by 16. */
  lemma WideLayerDigits(layer: OxtelLayer)
    requires layer >= 16
    ensures |Hex(layer, 0)| == 2 && DigitValue(Hex(layer, 0)[0]) == layer as nat / 16
  {
    var hi := layer as nat / 16;
    assert hi < 16;
    assert Numeral(hi, 16, false) == [DigitChar(hi, false)];
    assert Hex(layer, 0) == Numeral(layer, 16, false) == [DigitChar(hi, false)] + [DigitChar(layer as nat % 16, false)];
    DigitCharValue(hi, false);
  }

  // ---------------------------------------------------------------------
  // Position

  /** `SetImagePosition_AsString`: `G`, then layer, x and y offset in hex,
    * separated by single spaces. */
  function SetImagePositionAsString(layer: OxtelLayer, xOffset: uint16, yOffset: uint16): (r: string)
    ensures |r| >= 1 && r[..1] == "G"
    ensures var words := Split(r[1..], ' ');
      && |words| == 3 && ParseUint(words[0], 16, 8) == Ok(layer as nat)
      && ParseUint(words[1], 16, 16) == Ok(xOffset as nat) && ParseUint(words[2], 16, 16) == Ok(yOffset as nat)
  {
    var words := PositionWords(layer, xOffset, yOffset);
    var body := Words(words);
    assert ("G" + body)[1..] == body;
    "G" + body
  }

  /** The three hex words of a position command, each of which reads back. */
  function PositionWords(layer: OxtelLayer, xOffset: uint16, yOffset: uint16): (words: seq<string>)
    ensures |words| == 3 && forall i :: 0 <= i < 3 ==> ' ' !in words[i]
    ensures ParseUint(words[0], 16, 8) == Ok(layer as nat)
    ensures ParseUint(words[1], 16, 16) == Ok(xOffset as nat) && ParseUint(words[2], 16, 16) == Ok(yOffset as nat)
    ensures ParseInt(words[1], 16, 64) == Ok(xOffset as int) && ParseInt(words[2], 16, 64) == Ok(yOffset as int)
  {
    Pow2SixtyFour();
    NumeralNoSpace(layer);
    NumeralNoSpace(xOffset);
    NumeralNoSpace(yOffset);
    HexParse(layer, 0, 8);
    HexParse(xOffset, 0, 16);
    HexParse(yOffset, 0, 16);
    PaddedParseInt(xOffset, 16, false, 0, 64);
    PaddedParseInt(yOffset, 16, false, 0, 64);
    [Hex(layer, 0), Hex(xOffset, 0), Hex(yOffset, 0)]
  }

  /** `EnquireImagePosition`: split on spaces; the layer is the first word in
    * hex, the x and y offsets the next two as signed 64-bit hex. */
  function EnquireImagePosition(val: string): (r: Result<ImagePositionResponse>)
    ensures var data := Split(val, ' ');
      r.Ok? <==> && ParseUint(data[0], 16, 8).Ok? && |data| >= 3
                 && ParseInt(data[1], 16, 64).Ok? && ParseInt(data[2], 16, 64).Ok?
    ensures var data := Split(val, ' ');
      r.Ok? ==> && ParseUint(data[0], 16, 8) == Ok(r.value.layer as nat)
                && ParseInt(data[1], 16, 64) == Ok(r.value.xOffset as int)
                && ParseInt(data[2], 16, 64) == Ok(r.value.yOffset as int)
    ensures var data := Split(val, ' ');
      ParseUint(data[0], 16, 8).Ok? && |data| < 2 ==> r == Err(IndexOutOfRange)
  {
    var data := Split(val, ' ');
    var returnLayer :- ParseU8(data[0], 16);
    var x :- Part(data, 1);
    var xoffset :- ParseInt(x, 16, 64);
    var y :- Part(data, 2);
    var yoffset :- ParseInt(y, 16, 64);
    Pow2SixtyFour();
    Ok(ImagePositionResponse(returnLayer, xoffset, yoffset))
  }

  /** A position command's body reads back as its layer and offsets. */
  lemma ImagePositionRoundTrip(layer: OxtelLayer, xOffset: uint16, yOffset: uint16)
    ensures EnquireImagePosition(SetImagePositionAsString(layer, xOffset, yOffset)[1..])
            == Ok(ImagePositionResponse(layer, xOffset, yOffset))
  {
    var words := PositionWords(layer, xOffset, yOffset);
    assert SetImagePositionAsString(layer, xOffset, yOffset)[1..] == Words(words);
  }
}
