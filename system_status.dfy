/// `system_status.go`: the status enquiries (`M`, `N`, `XA`, `Xb`, `X3`,
/// `hLAT`) and the fixed-position decoders of their responses.
module SystemStatus {
  import opened GoInts
  import opened Errors
  import opened GoFmt
  import opened GoStrconv
  import opened GoStrings
  import opened OxtelTypes
  import opened Fields

  const EnquireSystemStatusCommand := "M"
  const EnquireSlaveLayerStatusCommand := "XA"
  const EnquireFullVersionNumberCommand := "Xb"
  const EnquireNumberOfGraphicLayersCommand := "hNGL"
  const EnquireProductNameCommand := "Xn"
  const EnquireMediaPortNameCommand := "hTN"

  // ---------------------------------------------------------------------
  // Graphic layers

  /** `EnquireNumberOfGraphicLayers`: the whole body is a decimal count,
    * read with `strconv.Atoi`. */
  function EnquireNumberOfGraphicLayers(val: string): (r: Result<int64>)
    ensures r.Ok? <==> Atoi(val).Ok?
    ensures r.Ok? ==> r.value as int == Atoi(val).value
    ensures r.Err? ==> r.error == NumError
  {
    Atoi64(val)
  }

  /** Every count the device can report in decimal reads back unchanged. */
  lemma GraphicLayersRoundTrip(n: int64)
    ensures EnquireNumberOfGraphicLayers(SignedDec(n as int)) == Ok(n)
  {
    Pow2SixtyFour();
    SignedDecAtoi(n as int);
  }

  // ---------------------------------------------------------------------
  // Latency

  /** `EnquireLatency_AsString`: `hLAT` and the source in hex. */
  function EnquireLatencyAsString(source: OxtelLatencySource): (r: string)
    ensures |r| >= 5 && r[..4] == "hLAT" && ParseUint(r[4..], 16, 8) == Ok(source as nat)
  {
    Pow2Eight();
    HexParse(source, 0, 8);
    assert ("hLAT" + Hex(source, 0))[4..] == Hex(source, 0);
    "hLAT" + Hex(source, 0)
  }

  /** `EnquireLatency`: the source is the hex digit `[0]` and the latency the
    * signed hex digit `[1]`. */
  function EnquireLatency(val: string): (r: Result<LatencyResponse>)
    ensures |val| == 0 ==> r == Err(IndexOutOfRange)
  {
    Pow2Eight();
    var source :- HexSlice(val, 0, 1, 8);
    var c :- CharAt(val, 1);
    var latency :- ParseInt(c, 16, 8);
    Ok(LatencyResponse(source, latency))
  }

  /** A one-character signed hex field is its digit: a sign alone is not a
    * number. */
  lemma SignedHexDigit(c: char)
    ensures ParseInt([c], 16, 8).Ok? <==> DigitValue(c) < 16
    ensures ParseInt([c], 16, 8).Ok? ==> ParseInt([c], 16, 8).value == DigitValue(c)
  {
    if DigitValue(c) < 16 {
      HexDigitParse(c, 8);
      Pow2Eight();
    }
  }

  /** The latency body is two hex digits: it decodes exactly when both are
    * hex digits, to their values; a short body is a panic. */
  lemma LatencyDigits(val: string)
    ensures EnquireLatency(val).Ok? <==> |val| >= 2 && DigitValue(val[0]) < 16 && DigitValue(val[1]) < 16
    ensures EnquireLatency(val).Ok? ==>
              EnquireLatency(val).value == LatencyResponse(DigitValue(val[0]), DigitValue(val[1]))
    ensures |val| == 1 && DigitValue(val[0]) < 16 ==> EnquireLatency(val) == Err(IndexOutOfRange)
  {
    Pow2Eight();
    DigitFields(val);
    if |val| >= 1 {
      assert HexAt(val, 0, 1, DigitValue(val[0])) <==> DigitValue(val[0]) < 16;
    }
    if |val| >= 2 {
      SignedHexDigit(val[1]);
    }
  }

  // ---------------------------------------------------------------------
  // System status

  /** `EnquireSystemStatus`: the mode is the decimal digit `[0]`, the version
    * `[1:4]` and `[4:7]` in hex, the video standard the decimal digit `[7]`,
    * then preview source, the two DSK fade rates and the two DSK
    * fade-to-black rates as five 3-digit hex fields over `[8:23]`, and the
    * not-accessed flag the hex digit `[23]`. */
  function EnquireSystemStatus(val: string): (r: Result<SystemStatusResponse>)
    ensures r.Ok? ==> |val| >= 24
    ensures r.Ok? ==> && DecAt(val, 0, 1, r.value.systemMode) && HexAt(val, 1, 3, r.value.versionHigh)
                      && HexAt(val, 4, 3, r.value.versionLow) && DecAt(val, 7, 1, r.value.videoStandard)
                      && HexAt(val, 8, 3, r.value.previewSource) && HexAt(val, 11, 3, r.value.fadeRateDSK1)
                      && HexAt(val, 14, 3, r.value.fadeRateDSK2) && HexAt(val, 17, 3, r.value.ftbRateDSK1)
                      && HexAt(val, 20, 3, r.value.ftbRateDSK2) && HexAt(val, 23, 1, r.value.systemNotAccessed)
    ensures |val| == 0 ==> r == Err(IndexOutOfRange)
  {
    Pow2Eight();
    var mode :- DecSlice(val, 0, 1, 8);
    var vhigh :- HexSlice(val, 1, 4, 16);
    var vlow :- HexSlice(val, 4, 7, 16);
    var standard :- DecSlice(val, 7, 8, 8);
    var preview :- HexSlice(val, 8, 11, 16);
    var fade1 :- HexSlice(val, 11, 14, 16);
    var fade2 :- HexSlice(val, 14, 17, 16);
    var ftb1 :- HexSlice(val, 17, 20, 16);
    var ftb2 :- HexSlice(val, 20, 23, 16);
    var access :- HexSlice(val, 23, 24, 8);
    Ok(SystemStatusResponse(mode, vhigh, vlow, standard, preview, fade1, fade2, ftb1, ftb2, access))
  }

  /** Every body whose fields hold a status decodes to that status. */
  lemma SystemStatusFields(val: string, s: SystemStatusResponse)
    requires && DecAt(val, 0, 1, s.systemMode) && HexAt(val, 1, 3, s.versionHigh)
             && HexAt(val, 4, 3, s.versionLow) && DecAt(val, 7, 1, s.videoStandard)
             && HexAt(val, 8, 3, s.previewSource) && HexAt(val, 11, 3, s.fadeRateDSK1)
             && HexAt(val, 14, 3, s.fadeRateDSK2) && HexAt(val, 17, 3, s.ftbRateDSK1)
             && HexAt(val, 20, 3, s.ftbRateDSK2) && HexAt(val, 23, 1, s.systemNotAccessed)
    ensures EnquireSystemStatus(val) == Ok(s)
  {
    Pow2Eight();
  }

  /** A character that is no decimal digit, such as the hex-only `A`, where
    * the mode stands is a parse error. */
  lemma SystemModeDecimalOnly(val: string)
    requires |val| >= 1 && DigitValue(val[0]) >= 10
    ensures EnquireSystemStatus(val) == Err(NumError)
  {
    assert val[0..1] == [val[0]];
  }

  /** The same for the video standard, once the fields before it read. */
  lemma VideoStandardDecimalOnly(val: string)
    requires |val| >= 8 && DigitValue(val[7]) >= 10
    requires DecSlice(val, 0, 1, 8).Ok? && HexSlice(val, 1, 4, 16).Ok? && HexSlice(val, 4, 7, 16).Ok?
    ensures EnquireSystemStatus(val) == Err(NumError)
  {
    assert val[7..8] == [val[7]];
  }

  // ---------------------------------------------------------------------
  // Video layer status

  /** `EnquireVideoLayerStatus_AsString`: `N` and the layer in hex. */
  function EnquireVideoLayerStatusAsString(layer: OxtelLayer): (r: string)
    ensures |r| >= 2 && r[..1] == "N" && ParseUint(r[1..], 16, 8) == Ok(layer as nat)
  {
    Pow2Eight();
    HexParse(layer, 0, 8);
    assert ("N" + Hex(layer, 0))[1..] == Hex(layer, 0);
    "N" + Hex(layer, 0)
  }

  /** `EnquireVideoLayerStatus`: fader angle, fade-to-black angle and two
    * unused values as 3-digit hex fields over `[0:12]`, then a 2-digit hex
    * field `[12:14]`. */
  function EnquireVideoLayerStatus(val: string): (r: Result<VideoLayerStatusResponse>)
    ensures r.Ok? ==> |val| >= 14
    ensures r.Ok? ==> && HexAt(val, 0, 3, r.value.layerFaderAngle) && HexAt(val, 3, 3, r.value.layerFTBAngle)
                      && HexAt(val, 6, 3, r.value.unused1) && HexAt(val, 9, 3, r.value.unused2)
                      && HexAt(val, 12, 2, r.value.unused3)
    ensures |val| < 3 ==> r == Err(IndexOutOfRange)
  {
    Pow2Eight();
    var fadeAngle :- HexSlice(val, 0, 3, 16);
    var ftbAngle :- HexSlice(val, 3, 6, 16);
    var u1 :- HexSlice(val, 6, 9, 16);
    var u2 :- HexSlice(val, 9, 12, 16);
    var u3 :- HexSlice(val, 12, 14, 16);
    Ok(VideoLayerStatusResponse(fadeAngle, ftbAngle, u1, u2, u3))
  }

  /** Every body whose fields hold a layer status decodes to it. */
  lemma VideoLayerStatusFields(val: string, s: VideoLayerStatusResponse)
    requires && HexAt(val, 0, 3, s.layerFaderAngle) && HexAt(val, 3, 3, s.layerFTBAngle)
             && HexAt(val, 6, 3, s.unused1) && HexAt(val, 9, 3, s.unused2) && HexAt(val, 12, 2, s.unused3)
    ensures EnquireVideoLayerStatus(val) == Ok(s)
  {
    Pow2Eight();
  }

  // ---------------------------------------------------------------------
  // Command availability

  /** `EnquireCommandAvailability_AsString`: `X3` and the two command bytes
    * verbatim. */
  function EnquireCommandAvailabilityAsString(byte1: uint8, byte2: uint8): (r: string)
    ensures |r| == 4 && r[..2] == "X3" && r[2] as int == byte1 as int && r[3] as int == byte2 as int
  {
    "X3" + [byte1 as char, byte2 as char]
  }

  /** `EnquireCommandAvailability`: bytes `[0]` and `[1]` copied, `[2]` a
    * boolean. */
  function EnquireCommandAvailability(val: string): (r: Result<CommandAvailabilityResponse>)
    ensures r.Ok? <==> |val| >= 3 && ParseBool([val[2]]).Ok?
    ensures r.Ok? ==> r.value == CommandAvailabilityResponse(val[0], val[1], ParseBool([val[2]]).value)
    ensures r.Err? ==> r.error == if |val| < 3 then IndexOutOfRange else NumError
  {
    var cmdByte1 :- CharAt(val, 0);
    var cmdByte2 :- CharAt(val, 1);
    var supported :- BoolAt(val, 2);
    Ok(CommandAvailabilityResponse(val[0], val[1], supported))
  }

  /** A reply that echoes the enquired command and a flag reports that
    * command and that flag. */
  lemma CommandAvailabilityRoundTrip(byte1: uint8, byte2: uint8, supported: bool)
    ensures var echo := EnquireCommandAvailabilityAsString(byte1, byte2)[2..] + (if supported then "1" else "0");
      EnquireCommandAvailability(echo) == Ok(CommandAvailabilityResponse(byte1 as char, byte2 as char, supported))
  {
  }

  // ---------------------------------------------------------------------
  // Slave layer status

  /** `EnquireSlaveLayerStatus`: one boolean per layer in `[0]` to `[7]`,
    * read in order, then a signed 32-bit hex value in `[8:16]`. */
  function EnquireSlaveLayerStatus(val: string): (r: Result<SlaveLayerStatusResponse>)
    ensures r.Ok? ==> |val| >= 16 && forall i :: 0 <= i < 8 ==> ParseBool([val[i]]) == Ok(r.value.layerStates[i])
    ensures r.Ok? ==> ParseInt(val[8..16], 16, 32) == Ok(r.value.unused as int)
    ensures r.Ok? <==> |val| >= 16 && (forall i :: 0 <= i < 8 ==> ParseBool([val[i]]).Ok?) && ParseInt(val[8..16], 16, 32).Ok?
  {
    var layers :- BoolsAt(val, 8);
    var digits :- Slice(val, 8, 16);
    var unused :- ParseI32(digits, 16);
    Ok(SlaveLayerStatusResponse(layers, unused))
  }

  /** A body of eight boolean digits and an eight-digit hex value decodes to
    * those flags and that value. */
  lemma SlaveLayerStatusRoundTrip(layers: LayerFlags, unused: int32)
    requires unused >= 0
    ensures var val := FlagDigits(layers) + Hex(unused as nat, 8);
      EnquireSlaveLayerStatus(val) == Ok(SlaveLayerStatusResponse(layers, unused))
  {
    var digits := FlagDigits(layers);
    var val := digits + Hex(unused as nat, 8);
    PowValues();
    Pow2ThirtyTwo();
    HexLength(unused as nat, 8);
    PaddedParseInt(unused as nat, 16, false, 8, 32);
    assert val[8..16] == Hex(unused as nat, 8);
    forall i | 0 <= i < 8 ensures ParseBool([val[i]]) == Ok(layers[i]) {
      assert val[i] == digits[i];
    }
    var r := EnquireSlaveLayerStatus(val);
    assert r.Ok?;
    assert r.value.layerStates == layers by {
      assert forall i :: 0 <= i < 8 ==> ParseBool([val[i]]) == Ok(r.value.layerStates[i]);
    }
  }

  /** A `1` or `0` per flag. */
  function FlagDigits(flags: seq<bool>): (r: string)
    ensures |r| == |flags|
    ensures forall i :: 0 <= i < |flags| ==> ParseBool([r[i]]) == Ok(flags[i])
  {
    seq(|flags|, i requires 0 <= i < |flags| => if flags[i] then '1' else '0')
  }

  // ---------------------------------------------------------------------
  // Full version number

  /** `EnquireFullVersionNumber`: split on `.`; the first four parts are
    * decimal integers and the fifth the build, which keeps no later part;
    * the whole body is kept as text. A missing part is a panic, but only
    * once every part before it has parsed. */
  function EnquireFullVersionNumber(val: string): (r: Result<FullVersionNumberResponse>)
    ensures var parts := Split(val, '.');
      r.Ok? ==> && |parts| >= 5
                && Atoi(parts[0]) == Ok(r.value.major as int) && Atoi(parts[1]) == Ok(r.value.minor as int)
                && Atoi(parts[2]) == Ok(r.value.patch as int) && Atoi(parts[3]) == Ok(r.value.branch as int)
                && r.value.buildNumber == parts[4] && r.value.asString == val
    ensures var parts := Split(val, '.');
      r.Ok? <==> && |parts| >= 5 && Atoi(parts[0]).Ok? && Atoi(parts[1]).Ok? && Atoi(parts[2]).Ok? && Atoi(parts[3]).Ok?
  {
    var parts := Split(val, '.');
    var major :- Atoi64(parts[0]);
    var p1 :- Part(parts, 1);
    var minor :- Atoi64(p1);
    var p2 :- Part(parts, 2);
    var patch :- Atoi64(p2);
    var p3 :- Part(parts, 3);
    var branch :- Atoi64(p3);
    var build :- Part(parts, 4);
    Ok(FullVersionNumberResponse(major, minor, patch, branch, build, val))
  }

  /** A dotted version whose build holds no dot decodes to its numbers and
    * build. */
  lemma FullVersionRoundTrip(major: uint32, minor: uint32, patch: uint32, branch: uint32, build: string)
    requires '.' !in build
    ensures var val := Join([Dec(major, 0), Dec(minor, 0), Dec(patch, 0), Dec(branch, 0), build], '.');
      EnquireFullVersionNumber(val) == Ok(FullVersionNumberResponse(major, minor, patch, branch, build, val))
  {
    var parts := [Dec(major, 0), Dec(minor, 0), Dec(patch, 0), Dec(branch, 0), build];
    Pow2ThirtyTwo(); Pow2SixtyFour();
    NumeralFree(major, 10, 0, '.');
    NumeralFree(minor, 10, 0, '.');
    NumeralFree(patch, 10, 0, '.');
    NumeralFree(branch, 10, 0, '.');
    SplitJoin(parts, '.');
    SignedDecAtoi(major);
    SignedDecAtoi(minor);
    SignedDecAtoi(patch);
    SignedDecAtoi(branch);
  }
}
