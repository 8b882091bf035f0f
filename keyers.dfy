/// `keyers.go`: fading and cutting a graphic keying layer (`1`, `3`), the
/// layer's default transition duration (`B`) and its fader angle (`@`),
/// each a line of space-separated fields.
module Keyers {
  import opened GoInts
  import opened Errors
  import opened GoFmt
  import opened GoStrconv
  import opened GoStrings
  import opened OxtelTypes
  import opened Transport
  import opened Layout
  import opened Fields

  /** The longest transition, in fields or frames, `FadeKeyer` and
    * `SetTransitionDuration` accept. */
  const MaxRate: uint16 := 999
  /** The largest absolute fader level `SetFaderAngle` accepts. */
  const MaxAngle: uint16 := 512

  /** The first word of a keyer command: a command letter and `%x` of the
    * layer. */
  function LayerWord(letter: char, layer: OxtelLayer): (w: string)
    ensures |w| >= 2 && w[0] == letter && ' ' !in w[1..]
    ensures ParseUint(w[1..], 16, 8) == Ok(layer as nat)
  {
    Pow2Eight();
    HexParse(layer, 0, 8);
    NumeralFree(layer, 16, 0, ' ');
    assert ([letter] + Hex(layer, 0))[1..] == Hex(layer, 0);
    [letter] + Hex(layer, 0)
  }

  /** `%d` of a one-byte value: a word a decimal parse reads back. */
  function DecWord(v: uint8): (w: string)
    ensures |w| >= 1 && ' ' !in w && ParseUint(w, 10, 8) == Ok(v as nat)
  {
    Pow2Eight();
    DecParse(v, 0, 8);
    NumeralFree(v, 10, 0, ' ');
    Dec(v, 0)
  }

  /** `%x` of a 16-bit value: a word a hex parse reads back. */
  function HexWord(v: uint16): (w: string)
    ensures |w| >= 1 && ' ' !in w && ParseUint(w, 16, 16) == Ok(v as nat)
  {
    Pow2Eight();
    HexParse(v, 0, 16);
    NumeralFree(v, 16, 0, ' ');
    Hex(v, 0)
  }

  /** A first word with a space-free tail, followed by more words, splits
    * back on spaces into the same words. */
  function Line(first: string, rest: seq<string>): (r: string)
    requires |first| >= 1 && first[0] != ' ' && ' ' !in first[1..]
    requires forall i :: 0 <= i < |rest| ==> ' ' !in rest[i]
    ensures Split(r, ' ') == [first] + rest
  {
    var words := [first] + rest;
    assert ' ' !in first by {
      assert first == [first[0]] + first[1..];
    }
    assert forall i :: 0 <= i < |words| ==> ' ' !in words[i] by {
      forall i | 0 <= i < |words| ensures ' ' !in words[i] {
        if i > 0 { assert words[i] == rest[i - 1]; }
      }
    }
    Words(words)
  }

  // ---------------------------------------------------------------------
  // Fade and cut

  /** `FadeKeyer_AsString` as evidently intended: `1`, the layer in hex and
    * the direction in decimal, then the rate in hex when one is given. */
  function FadeKeyerAsString(layer: OxtelLayer, direction: OxtelDirection, rate: Option<uint16>): (r: string)
    ensures var words := Split(r, ' ');
      && |words| == (if rate.None? then 2 else 3)
      && |words[0]| >= 2 && words[0][0] == '1' && ParseUint(words[0][1..], 16, 8) == Ok(layer as nat)
      && ParseUint(words[1], 10, 8) == Ok(direction as nat)
      && (rate.Some? ==> ParseUint(words[2], 16, 16) == Ok(rate.value as nat))
  {
    match rate
    case None => Line(LayerWord('1', layer), [DecWord(direction)])
    case Some(fields) => Line(LayerWord('1', layer), [DecWord(direction), HexWord(fields)])
  }

  /** `FadeKeyer` as evidently intended: a given rate above 999 is refused,
    * anything else is sent. */
  function FadeKeyer(layer: OxtelLayer, direction: OxtelDirection, rate: Option<uint16>): (r: Result<string>)
    ensures r.Err? <==> rate.Some? && rate.value > MaxRate
    ensures r.Err? ==> r.error == InvalidDurationError
    ensures r.Ok? ==> r.value == FadeKeyerAsString(layer, direction, rate)
  {
    if rate.Some? && rate.value > MaxRate then Err(InvalidDurationError)
    else Ok(FadeKeyerAsString(layer, direction, rate))
  }

  /** `FadeKeyer_AsString` as written: `%x` is applied to the rate pointer,
    * so a given rate goes out as the pointer's address, `address`, in hex. */
  function FadeKeyerAsStringAsWritten(layer: OxtelLayer, direction: OxtelDirection, rate: Option<uint16>, address: uint64): (r: string)
    ensures rate.None? ==> r == FadeKeyerAsString(layer, direction, rate)
    ensures rate.Some? ==> |Split(r, ' ')| == 3 && ParseUint(Split(r, ' ')[2], 16, 64) == Ok(address as nat)
  {
    match rate
    case None => FadeKeyerAsString(layer, direction, rate)
    case Some(_) =>
      NumeralFree(address, 16, 0, ' ');
      Pow2SixtyFour();
      HexParse(address, 0, 64);
      Line(LayerWord('1', layer), [DecWord(direction), Hex(address, 0)])
  }

  /** `FadeKeyer` as written: the same guard, then the command with the
    * address. */
  function FadeKeyerAsWritten(layer: OxtelLayer, direction: OxtelDirection, rate: Option<uint16>, address: uint64): (r: Result<string>)
    ensures r.Err? <==> FadeKeyer(layer, direction, rate).Err?
    ensures r.Ok? ==> r.value == FadeKeyerAsStringAsWritten(layer, direction, rate, address)
  {
    if rate.Some? && rate.value > MaxRate then Err(InvalidDurationError)
    else Ok(FadeKeyerAsStringAsWritten(layer, direction, rate, address))
  }

  /** With a rate given, the device reads the address as the rate: the
    * command sent as written differs from the intended one unless the
    * address happens to equal the rate. With no rate both agree. */
  lemma FadeKeyerPointerFinding(layer: OxtelLayer, direction: OxtelDirection, rate: uint16, address: uint64)
    requires rate <= MaxRate && address as int != rate as int
    ensures FadeKeyerAsWritten(layer, direction, Some(rate), address).Ok?
    ensures FadeKeyerAsWritten(layer, direction, Some(rate), address) != FadeKeyer(layer, direction, Some(rate))
    ensures FadeKeyerAsWritten(layer, direction, None, address) == FadeKeyer(layer, direction, None)
  {
    var written := FadeKeyerAsStringAsWritten(layer, direction, Some(rate), address);
    var intended := FadeKeyerAsString(layer, direction, Some(rate));
    ParseNarrow(Split(intended, ' ')[2], 16, 16);
  }

  /** `CutKeyer_AsString`: `3`, the layer in hex and the direction in decimal. */
  function CutKeyerAsString(layer: OxtelLayer, direction: OxtelDirection): (r: string)
    ensures var words := Split(r, ' ');
      && |words| == 2 && |words[0]| >= 2 && words[0][0] == '3'
      && ParseUint(words[0][1..], 16, 8) == Ok(layer as nat)
      && ParseUint(words[1], 10, 8) == Ok(direction as nat)
  {
    Line(LayerWord('3', layer), [DecWord(direction)])
  }

  /** The keyer-position tally the device sends back has the cut command's
    * layout: for a layer below 16 and a direction below 10, the client's
    * tally decoder reads back both from the terminated line. */
  lemma CutKeyerTallyRoundTrip(layer: OxtelLayer, direction: OxtelDirection)
    requires layer < 16 && direction < 10
    ensures var cmd := CutKeyerAsString(layer, direction);
      Classify(cmd + ":") == Ok(KeyerPositionTally(cmd, layer, direction))
  {
    var cmd := CutKeyerAsString(layer, direction);
    PowValues();
    Pow2Eight();
    var h := Hex(layer, 0);
    var d := Dec(direction, 0);
    assert h == Hex(layer, 1) && d == Dec(direction, 1);
    HexLength(layer, 1);
    DecLength(direction, 1);
    HexParse(layer, 0, 8);
    DecParse(direction, 0, 8);
    assert cmd == "3" + h + " " + d by {
      JoinCons("3" + h, [d], ' ');
    }
    var message := cmd + ":";
    assert message[0] == '3';
    assert message[..|message| - 1] == cmd;
    var data := cmd[1..];
    assert [data[0]] == h && [data[2]] == d;
  }

  // ---------------------------------------------------------------------
  // Transition duration and fader angle

  /** `SetTransitionDuration_AsString`: `B`, the layer, `1` and the rate,
    * all in hex. */
  function SetTransitionDurationAsString(layer: OxtelLayer, rate: uint16): (r: string)
    ensures var words := Split(r, ' ');
      && |words| == 3 && |words[0]| >= 2 && words[0][0] == 'B'
      && ParseUint(words[0][1..], 16, 8) == Ok(layer as nat)
      && words[1] == "1" && ParseUint(words[2], 16, 16) == Ok(rate as nat)
  {
    Line(LayerWord('B', layer), ["1", HexWord(rate)])
  }

  /** `SetTransitionDuration`: a rate above 999 is refused. */
  function SetTransitionDuration(layer: OxtelLayer, rate: uint16): (r: Result<string>)
    ensures r.Err? <==> rate > MaxRate
    ensures r.Err? ==> r.error == InvalidRateError
    ensures r.Ok? ==> r.value == SetTransitionDurationAsString(layer, rate)
  {
    if rate > MaxRate then Err(InvalidRateError) else Ok(SetTransitionDurationAsString(layer, rate))
  }

  /** `SetFaderAngle_AsString`: `@`, the layer, `1` and the angle, all in hex. */
  function SetFaderAngleAsString(layer: OxtelLayer, angle: uint16): (r: string)
    ensures var words := Split(r, ' ');
      && |words| == 3 && |words[0]| >= 2 && words[0][0] == '@'
      && ParseUint(words[0][1..], 16, 8) == Ok(layer as nat)
      && words[1] == "1" && ParseUint(words[2], 16, 16) == Ok(angle as nat)
  {
    Line(LayerWord('@', layer), ["1", HexWord(angle)])
  }

  /** `SetFaderAngle`: an angle above 512 is refused. */
  function SetFaderAngle(layer: OxtelLayer, angle: uint16): (r: Result<string>)
    ensures r.Err? <==> angle > MaxAngle
    ensures r.Err? ==> r.error == InvalidAngleError
    ensures r.Ok? ==> r.value == SetFaderAngleAsString(layer, angle)
  {
    if angle > MaxAngle then Err(InvalidAngleError) else Ok(SetFaderAngleAsString(layer, angle))
  }
}
