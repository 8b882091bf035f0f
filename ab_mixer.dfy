/// `ab_mixer.go`: the A/B mixer commands (`U*`), their range guards, and the
/// decoders of the mixer-input, mix-mode and colour-generator responses.
module AbMixer {
  import opened GoInts
  import opened Errors
  import opened GoFmt
  import opened GoStrconv
  import opened GoStrings
  import opened OxtelTypes
  import opened Utils
  import opened Layout
  import opened Fields

  const CutToACommand := "U0"
  const CutToBCommand := "U1"
  const CutABCommand := "U4"
  const EnquireMixModeCommand := "Ua"
  const EnquireVideoTalliesCommand := "Y6"

  /** `prefix` then `%03x` of a duration, mix or position. */
  function ThreeDigitCommand(prefix: string, v: uint16): (r: string)
    ensures |r| >= |prefix| + 3 && r[..|prefix|] == prefix
    ensures v < 0x1000 ==> |r| == |prefix| + 3 && HexAt(r, |prefix|, 3, v)
  {
    var fs := [Lit(prefix), HexOf(v, 3)];
    PowValues();
    Shape(fs);
    Render(fs)
  }

  /** `FadeToA_AsString`: `U2` and the duration in three hex digits; no
    * range check. */
  function FadeToAAsString(duration: uint16): (r: string)
    ensures |r| >= 5 && r[..2] == "U2"
    ensures duration < 0x1000 ==> |r| == 5 && HexAt(r, 2, 3, duration)
  {
    ThreeDigitCommand("U2", duration)
  }

  /** `FadeToB_AsString`: as `FadeToA_AsString` with `U3`. */
  function FadeToBAsString(duration: uint16): (r: string)
    ensures |r| >= 5 && r[..2] == "U3"
    ensures duration < 0x1000 ==> |r| == 5 && HexAt(r, 2, 3, duration)
  {
    ThreeDigitCommand("U3", duration)
  }

  /** `FadeAB_AsString`: as `FadeToA_AsString` with `U5`. */
  function FadeABAsString(duration: uint16): (r: string)
    ensures |r| >= 5 && r[..2] == "U5"
    ensures duration < 0x1000 ==> |r| == 5 && HexAt(r, 2, 3, duration)
  {
    ThreeDigitCommand("U5", duration)
  }

  /** `FadeToA`: a duration above 999 is refused before anything is sent;
    * otherwise the command sent is `U2` and exactly three hex digits. */
  function FadeToA(duration: uint16): (r: Result<string>)
    ensures r.Err? <==> duration > 999
    ensures r.Err? ==> r.error == InvalidDurationError
    ensures r.Ok? ==> r.value == FadeToAAsString(duration) && |r.value| == 5 && HexAt(r.value, 2, 3, duration)
  {
    if duration > 999 then Err(InvalidDurationError) else Ok(FadeToAAsString(duration))
  }

  /** `FadeToB`: as `FadeToA` with `U3`. */
  function FadeToB(duration: uint16): (r: Result<string>)
    ensures r.Err? <==> duration > 999
    ensures r.Err? ==> r.error == InvalidDurationError
    ensures r.Ok? ==> r.value == FadeToBAsString(duration) && |r.value| == 5 && HexAt(r.value, 2, 3, duration)
  {
    if duration > 999 then Err(InvalidDurationError) else Ok(FadeToBAsString(duration))
  }

  /** `FadeAB`: as `FadeToA` with `U5`. */
  function FadeAB(duration: uint16): (r: Result<string>)
    ensures r.Err? <==> duration > 999
    ensures r.Err? ==> r.error == InvalidDurationError
    ensures r.Ok? ==> r.value == FadeABAsString(duration) && |r.value| == 5 && HexAt(r.value, 2, 3, duration)
  {
    if duration > 999 then Err(InvalidDurationError) else Ok(FadeABAsString(duration))
  }

  /** `SetTransitionType_AsString`: `U6` and the type in two hex digits. */
  function SetTransitionTypeAsString(transitionType: OxtelTransitionType): (r: string)
    ensures |r| == 4 && r[..2] == "U6" && HexAt(r, 2, 2, transitionType)
  {
    var fs := [Lit("U6"), HexOf(transitionType, 2)];
    PowValues();
    Shape(fs);
    Render(fs)
  }

  /** `AsymmetricVFadeAB_AsString`: `U8`, then the down and up durations in
    * three hex digits each. */
  function AsymmetricVFadeABAsString(downDuration: uint16, upDuration: uint16): (r: string)
    ensures |r| >= 8 && r[..2] == "U8"
    ensures downDuration < 0x1000 && upDuration < 0x1000 ==>
              |r| == 8 && HexAt(r, 2, 3, downDuration) && HexAt(r, 5, 3, upDuration)
  {
    var fs := [Lit("U8"), HexOf(downDuration, 3), HexOf(upDuration, 3)];
    PowValues();
    Shape(fs);
    Render(fs)
  }

  /** `AsymmetricVFadeAB`: either duration above 999 is refused. */
  function AsymmetricVFadeAB(downDuration: uint16, upDuration: uint16): (r: Result<string>)
    ensures r.Err? <==> downDuration > 999 || upDuration > 999
    ensures r.Err? ==> r.error == InvalidDurationError
    ensures r.Ok? ==> r.value == AsymmetricVFadeABAsString(downDuration, upDuration)
                      && |r.value| == 8 && HexAt(r.value, 2, 3, downDuration) && HexAt(r.value, 5, 3, upDuration)
  {
    if downDuration > 999 then Err(InvalidDurationError)
    else if upDuration > 999 then Err(InvalidDurationError)
    else Ok(AsymmetricVFadeABAsString(downDuration, upDuration))
  }

  /** `SetAbsoluteMix_AsString`: `U9` and the mix in three hex digits. */
  function SetAbsoluteMixAsString(mix: uint16): (r: string)
    ensures |r| >= 5 && r[..2] == "U9"
    ensures mix < 0x1000 ==> |r| == 5 && HexAt(r, 2, 3, mix)
  {
    ThreeDigitCommand("U9", mix)
  }

  /** `SetAbsoluteMix`: a mix above 512 is refused. */
  function SetAbsoluteMix(mix: uint16): (r: Result<string>)
    ensures r.Err? <==> mix > 512
    ensures r.Err? ==> r.error == InvalidMixError
    ensures r.Ok? ==> r.value == SetAbsoluteMixAsString(mix) && |r.value| == 5 && HexAt(r.value, 2, 3, mix)
  {
    if mix > 512 then Err(InvalidMixError) else Ok(SetAbsoluteMixAsString(mix))
  }

  /** `AsymmetricTransition_AsString`: `UA`, the destination as one hex digit
    * (when below 16), then both durations in three hex digits. */
  function AsymmetricTransitionAsString(destination: OxtelMixerInput, downDuration: uint16, upDuration: uint16): (r: string)
    ensures |r| >= 9 && r[..2] == "UA"
    ensures destination < 16 && downDuration < 0x1000 && upDuration < 0x1000 ==>
              |r| == 9 && HexAt(r, 2, 1, destination) && HexAt(r, 3, 3, downDuration) && HexAt(r, 6, 3, upDuration)
  {
    var fs := [Lit("UA"), HexOf(destination, 0), HexOf(downDuration, 3), HexOf(upDuration, 3)];
    PowValues();
    Shape(fs);
    Render(fs)
  }

  /** `AsymmetricTransition`: either duration above 999 is refused. */
  function AsymmetricTransition(destination: OxtelMixerInput, downDuration: uint16, upDuration: uint16): (r: Result<string>)
    ensures r.Err? <==> downDuration > 999 || upDuration > 999
    ensures r.Err? ==> r.error == InvalidDurationError
    ensures r.Ok? ==> r.value == AsymmetricTransitionAsString(destination, downDuration, upDuration)
    ensures r.Ok? && destination < 16 ==>
              |r.value| == 9 && HexAt(r.value, 3, 3, downDuration) && HexAt(r.value, 6, 3, upDuration)
  {
    if downDuration > 999 then Err(InvalidDurationError)
    else if upDuration > 999 then Err(InvalidDurationError)
    else Ok(AsymmetricTransitionAsString(destination, downDuration, upDuration))
  }

  /** `FadeToSpecificPosition_AsString`: `UC`, then destination and duration
    * in three hex digits each. */
  function FadeToSpecificPositionAsString(destination: uint16, duration: uint16): (r: string)
    ensures |r| >= 8 && r[..2] == "UC"
    ensures destination < 0x1000 && duration < 0x1000 ==>
              |r| == 8 && HexAt(r, 2, 3, destination) && HexAt(r, 5, 3, duration)
  {
    var fs := [Lit("UC"), HexOf(destination, 3), HexOf(duration, 3)];
    PowValues();
    Shape(fs);
    Render(fs)
  }

  /** `FadeToSpecificPosition`: the destination is checked first (above 512
    * is a mix error), then the duration (above 999). */
  function FadeToSpecificPosition(destination: uint16, duration: uint16): (r: Result<string>)
    ensures destination > 512 ==> r == Err(InvalidMixError)
    ensures destination <= 512 && duration > 999 ==> r == Err(InvalidDurationError)
    ensures r.Ok? <==> destination <= 512 && duration <= 999
    ensures r.Ok? ==> r.value == FadeToSpecificPositionAsString(destination, duration)
                      && |r.value| == 8 && HexAt(r.value, 2, 3, destination) && HexAt(r.value, 5, 3, duration)
  {
    if destination > 512 then Err(InvalidMixError)
    else if duration > 999 then Err(InvalidDurationError)
    else Ok(FadeToSpecificPositionAsString(destination, duration))
  }

  /** `SelectMixerInput_AsString`: `UE`, the input and the source, and the
    * aspect-ratio converter when one is given, separated by spaces and each
    * in hex. */
  function SelectMixerInputAsString(input: OxtelMixerInput, source: OxtelVideoSource, arc: Option<OxtelARC>): (r: string)
    ensures var parts := Split(r, ' ');
      && |parts| == (if arc.Some? then 4 else 3)
      && parts[0] == "UE"
      && ParseUint(parts[1], 16, 8) == Ok(input as nat)
      && ParseUint(parts[2], 16, 8) == Ok(source as nat)
      && (arc.Some? ==> ParseUint(parts[3], 16, 8) == Ok(arc.value as nat))
  {
    Pow2Eight();
    if arc.Some? then SpacedHex("UE", [input, source, arc.value])
    else SpacedHex("UE", [input, source])
  }

  /** `EnquireMixerInput`: the request is `UE`, a space and the input in hex. */
  function EnquireMixerInputAsString(input: OxtelMixerInput): (r: string)
    ensures var parts := Split(r, ' ');
      |parts| == 2 && parts[0] == "UE" && ParseUint(parts[1], 16, 8) == Ok(input as nat)
  {
    Pow2Eight();
    SpacedHex("UE", [input])
  }

  /** `EnquireMixerInput`: the body is the input and the source, one hex
    * digit each. */
  function EnquireMixerInput(val: string): (r: Result<MixerInputResponse>)
    ensures r.Ok? ==> |val| >= 2 && HexAt(val, 0, 1, r.value.input) && HexAt(val, 1, 1, r.value.source)
    ensures |val| == 0 ==> r == Err(IndexOutOfRange)
  {
    Pow2Eight();
    var input :- HexSlice(val, 0, 1, 8);
    var source :- HexSlice(val, 1, 2, 8);
    Ok(MixerInputResponse(input, source))
  }

  /** The mixer-input body is two hex digits: it decodes exactly when both
    * characters are hex digits, to their values. */
  lemma MixerInputDigits(val: string)
    ensures EnquireMixerInput(val).Ok? <==> |val| >= 2 && DigitValue(val[0]) < 16 && DigitValue(val[1]) < 16
    ensures EnquireMixerInput(val).Ok? ==>
              EnquireMixerInput(val).value == MixerInputResponse(DigitValue(val[0]), DigitValue(val[1]))
  {
    Pow2Eight();
    DigitFields(val);
    if |val| >= 2 {
      assert HexAt(val, 0, 1, DigitValue(val[0])) <==> DigitValue(val[0]) < 16;
      assert HexAt(val, 1, 1, DigitValue(val[1])) <==> DigitValue(val[1]) < 16;
    }
  }

  /** `EnquireMixMode`: transition type `[0:2]`, mix rate `[2:5]`, wipe
    * softness `[5:8]` (at most 0xFF), mix angle `[8:11]` and the V-fade
    * colour `[11:17]`, which is cut down to its low byte; all hex. */
  function EnquireMixMode(val: string): (r: Result<MixModeResponse>)
    ensures r.Ok? ==> |val| >= 17
    ensures r.Ok? ==> HexAt(val, 0, 2, r.value.transitionType) && HexAt(val, 2, 3, r.value.abMixRate)
                      && HexAt(val, 5, 3, r.value.wipeSoftness) && HexAt(val, 8, 3, r.value.abMixAngle)
    ensures r.Ok? ==> exists color: nat {:trigger HexAt(val, 11, 6, color)} :: HexAt(val, 11, 6, color) && r.value.vFadeColor == ToUint8(color)
    ensures |val| < 2 ==> r == Err(IndexOutOfRange)
  {
    Pow2Eight();
    var transitionType :- HexSlice(val, 0, 2, 8);
    var abMixRate :- HexSlice(val, 2, 5, 16);
    var wipeSoftness :- HexSlice(val, 5, 8, 8);
    var abMixAngle :- HexSlice(val, 8, 11, 16);
    var vFadeColor :- HexSlice(val, 11, 17, 64);
    Ok(MixModeResponse(transitionType, abMixRate, wipeSoftness, abMixAngle, ToUint8(vFadeColor)))
  }

  /** A body whose five fields are hex decodes to them, with the colour cut
    * to its low byte; a softness above 0xFF is an error. */
  lemma MixModeFields(val: string, transitionType: uint8, rate: uint16, softness: nat, angle: uint16, color: nat)
    requires HexAt(val, 0, 2, transitionType) && HexAt(val, 2, 3, rate) && HexAt(val, 5, 3, softness)
    requires HexAt(val, 8, 3, angle) && HexAt(val, 11, 6, color)
    ensures softness <= 0xFF ==> EnquireMixMode(val) == Ok(MixModeResponse(transitionType, rate, softness, angle, ToUint8(color)))
    ensures softness > 0xFF ==> EnquireMixMode(val) == Err(NumError)
  {
    Pow2Eight();
    PowValues();
    HexAtBound(val, 0, 2, transitionType);
    HexAtBound(val, 2, 3, rate);
    HexAtBound(val, 8, 3, angle);
    HexAtBound(val, 11, 6, color);
  }

  /** `SetColorGeneratorColor_AsString`: `UZ`, the unit as one hex digit (when
    * below 16), then red, green and blue in two hex digits each. */
  function SetColorGeneratorColorAsString(unit: uint8, red: uint8, green: uint8, blue: uint8): (r: string)
    ensures |r| >= 9 && r[..2] == "UZ"
    ensures unit < 16 ==> |r| == 9 && HexAt(r, 2, 1, unit) && HexAt(r, 3, 2, red) && HexAt(r, 5, 2, green) && HexAt(r, 7, 2, blue)
  {
    var fs := [Lit("UZ"), HexOf(unit, 0), HexOf(red, 2), HexOf(green, 2), HexOf(blue, 2)];
    PowValues();
    Shape(fs);
    Render(fs)
  }

  /** `EnquireColorGeneratorColor_AsString`: `UZ` and the unit in decimal. */
  function EnquireColorGeneratorColorAsString(unit: uint8): (r: string)
    ensures |r| >= 3 && r[..2] == "UZ" && ParseUint(r[2..], 10, 8) == Ok(unit as nat)
  {
    Pow2Eight();
    DecParse(unit, 0, 8);
    assert ("UZ" + Dec(unit, 0))[2..] == Dec(unit, 0);
    "UZ" + Dec(unit, 0)
  }

  /** `EnquireColorGeneratorColor`: the unit `[0]`, then red `[1:3]`, green
    * `[3:5]` and blue `[5:7]`, all hex. */
  function EnquireColorGeneratorColor(val: string): (r: Result<ColorGeneratorResponse>)
    ensures r.Ok? ==> |val| >= 7
    ensures r.Ok? ==> HexAt(val, 0, 1, r.value.unit) && HexAt(val, 1, 2, r.value.red)
                      && HexAt(val, 3, 2, r.value.green) && HexAt(val, 5, 2, r.value.blue)
    ensures |val| == 0 ==> r == Err(IndexOutOfRange)
  {
    Pow2Eight();
    var unit :- HexSlice(val, 0, 1, 8);
    var red :- HexSlice(val, 1, 3, 8);
    var green :- HexSlice(val, 3, 5, 8);
    var blue :- HexSlice(val, 5, 7, 8);
    Ok(ColorGeneratorResponse(unit, red, green, blue))
  }

  /** Reading back a colour-setting body gives the colour that was set, for
    * a unit below 16. */
  lemma ColorGeneratorRoundTrip(unit: uint8, red: uint8, green: uint8, blue: uint8)
    requires unit < 16
    ensures EnquireColorGeneratorColor(SetColorGeneratorColorAsString(unit, red, green, blue)[2..])
            == Ok(ColorGeneratorResponse(unit, red, green, blue))
  {
    ColorBody(SetColorGeneratorColorAsString(unit, red, green, blue), unit, red, green, blue);
  }

  lemma ColorBody(s: string, unit: uint8, red: uint8, green: uint8, blue: uint8)
    requires |s| == 9 && HexAt(s, 2, 1, unit) && HexAt(s, 3, 2, red) && HexAt(s, 5, 2, green) && HexAt(s, 7, 2, blue)
    ensures EnquireColorGeneratorColor(s[2..]) == Ok(ColorGeneratorResponse(unit, red, green, blue))
  {
    HexAtShift(s, 2, 0, 1, unit);
    HexAtShift(s, 2, 1, 2, red);
    HexAtShift(s, 2, 3, 2, green);
    HexAtShift(s, 2, 5, 2, blue);
    ColorDecodes(s[2..], unit, red, green, blue);
  }

  lemma ColorDecodes(val: string, unit: uint8, red: uint8, green: uint8, blue: uint8)
    requires HexAt(val, 0, 1, unit) && HexAt(val, 1, 2, red) && HexAt(val, 3, 2, green) && HexAt(val, 5, 2, blue)
    ensures EnquireColorGeneratorColor(val) == Ok(ColorGeneratorResponse(unit, red, green, blue))
  {
    Pow2Eight();
    HexSliceOf(val, 0, 1, unit as nat, 8);
    HexSliceOf(val, 1, 2, red as nat, 8);
    HexSliceOf(val, 3, 2, green as nat, 8);
    HexSliceOf(val, 5, 2, blue as nat, 8);
  }

  /** `EnableVideoTallies_AsString`: `Y61` to enable, `Y60` to disable. */
  function EnableVideoTalliesAsString(enable: bool): (r: string)
    ensures |r| == 3 && r[..2] == "Y6" && ParseBool(r[2..]) == Ok(enable)
  {
    assert ("Y6" + BoolDigit(enable))[2..] == BoolDigit(enable);
    "Y6" + BoolDigit(enable)
  }

  /** `EnquireVideoTallies`: the body is a Go boolean. */
  function EnquireVideoTallies(val: string): (r: Result<bool>)
    ensures r.Ok? <==> val in {"1", "t", "T", "TRUE", "true", "True", "0", "f", "F", "FALSE", "false", "False"}
    ensures r.Ok? ==> (r.value <==> val in {"1", "t", "T", "TRUE", "true", "True"})
    ensures r.Err? ==> r.error == NumError
  {
    ParseBool(val)
  }

  /** The enquiry reads back the flag the enable command sent. */
  lemma VideoTalliesRoundTrip(enable: bool)
    ensures EnquireVideoTallies(EnableVideoTalliesAsString(enable)[2..]) == Ok(enable)
  {
  }
}
