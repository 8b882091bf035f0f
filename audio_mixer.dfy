/// `audio_mixer.go`: the audio A/B mixer commands (`j*`), their range
/// guards, the per-output gain command and the decoders of the follow-video
/// and gain responses.
module AudioMixer {
  import opened GoInts
  import opened Errors
  import opened GoFmt
  import opened GoStrconv
  import opened OxtelTypes
  import opened Utils
  import opened Layout
  import opened Fields

  const EnquireAudioABFollowVideoABCommand := "j74"

  /** `SrtAudioABMixerFadeRate_AsString`: `j31` and the duration in three
    * hex digits; no range check. */
  function SetAudioABMixerFadeRateAsString(duration: uint16): (r: string)
    ensures |r| >= 6 && r[..3] == "j31"
    ensures duration < 0x1000 ==> |r| == 6 && HexAt(r, 3, 3, duration)
  {
    var fs := [Lit("j31"), HexOf(duration, 3)];
    PowValues();
    Shape(fs);
    Render(fs)
  }

  /** `SetAudioABMixerFadeRate`: a duration above 999 is refused. */
  function SetAudioABMixerFadeRate(duration: uint16): (r: Result<string>)
    ensures r.Err? <==> duration > 999
    ensures r.Err? ==> r.error == InvalidDurationError
    ensures r.Ok? ==> r.value == SetAudioABMixerFadeRateAsString(duration) && |r.value| == 6 && HexAt(r.value, 3, 3, duration)
  {
    if duration > 999 then Err(InvalidDurationError) else Ok(SetAudioABMixerFadeRateAsString(duration))
  }

  /** `prefix` and `%x` of a one-byte value: one hex digit below 16. */
  function ShortHexCommand(prefix: string, v: uint8): (r: string)
    ensures |r| >= |prefix| + 1 && r[..|prefix|] == prefix
    ensures v < 16 ==> |r| == |prefix| + 1 && HexAt(r, |prefix|, 1, v)
  {
    var fs := [Lit(prefix), HexOf(v, 0)];
    PowValues();
    Shape(fs);
    Render(fs)
  }

  /** `AudioCutAB_AsString`: `j40` and the destination in hex. */
  function AudioCutABAsString(destination: OxtelMixerInput): (r: string)
    ensures |r| >= 4 && r[..3] == "j40"
    ensures destination < 16 ==> |r| == 4 && HexAt(r, 3, 1, destination)
  {
    ShortHexCommand("j40", destination)
  }

  /** `AudioFadeAB_AsString`: `j41` and the destination in hex. */
  function AudioFadeABAsString(destination: OxtelMixerInput): (r: string)
    ensures |r| >= 4 && r[..3] == "j41"
    ensures destination < 16 ==> |r| == 4 && HexAt(r, 3, 1, destination)
  {
    ShortHexCommand("j41", destination)
  }

  /** `SetAudioABFollowVideoAB_AsString`: `j511` to follow, `j510` not to. */
  function SetAudioABFollowVideoABAsString(enable: bool): (r: string)
    ensures |r| == 4 && r[..3] == "j51" && ParseBool(r[3..]) == Ok(enable)
  {
    assert ("j51" + BoolDigit(enable))[3..] == BoolDigit(enable);
    "j51" + BoolDigit(enable)
  }

  /** `EnquireAudioABFollowVideoAB`: an unused hex digit, then a boolean
    * character. */
  function EnquireAudioABFollowVideoAB(val: string): (r: Result<AudioABFollowVideoABResponse>)
    ensures r.Ok? ==> |val| >= 2 && HexAt(val, 0, 1, r.value.unused1) && ParseBool([val[1]]) == Ok(r.value.enabled)
    ensures r.Ok? <==> |val| >= 2 && DigitValue(val[0]) < 16 && ParseBool([val[1]]).Ok?
  {
    Pow2Eight();
    DigitFields(val);
    if |val| >= 1 then
      assert HexAt(val, 0, 1, DigitValue(val[0])) <==> DigitValue(val[0]) < 16;
      FollowVideoBody(val)
    else FollowVideoBody(val)
  }

  function FollowVideoBody(val: string): Result<AudioABFollowVideoABResponse>
  {
    Pow2Eight();
    var unused :- HexSlice(val, 0, 1, 8);
    var enabled :- BoolAt(val, 1);
    Ok(AudioABFollowVideoABResponse(unused, enabled))
  }

  /** The follow-video flag set by `j51` is read back by the enquiry, behind
    * the unused digit. */
  lemma FollowVideoRoundTrip(unused: uint8, enable: bool)
    requires unused < 16
    ensures EnquireAudioABFollowVideoAB(Hex(unused, 1) + SetAudioABFollowVideoABAsString(enable)[3..])
            == Ok(AudioABFollowVideoABResponse(unused, enable))
  {
    var val := Hex(unused, 1) + SetAudioABFollowVideoABAsString(enable)[3..];
    PowValues();
    HexAtConcat([], unused, 1, SetAudioABFollowVideoABAsString(enable)[3..]);
    assert [] + Hex(unused, 1) + SetAudioABFollowVideoABAsString(enable)[3..] == val;
    assert [val[1]] == SetAudioABFollowVideoABAsString(enable)[3..];
    Pow2Eight();
  }

  /** `SetAudioABPosition_AsString`: `ja` and the mix in three hex digits. */
  function SetAudioABPositionAsString(mix: uint16): (r: string)
    ensures |r| >= 5 && r[..2] == "ja"
    ensures mix < 0x1000 ==> |r| == 5 && HexAt(r, 2, 3, mix)
  {
    var fs := [Lit("ja"), HexOf(mix, 3)];
    PowValues();
    Shape(fs);
    Render(fs)
  }

  /** `SetAudioABPosition`: a mix above 512 is refused. */
  function SetAudioABPosition(mix: uint16): (r: Result<string>)
    ensures r.Err? <==> mix > 512
    ensures r.Err? ==> r.error == InvalidMixError
    ensures r.Ok? ==> r.value == SetAudioABPositionAsString(mix) && |r.value| == 5 && HexAt(r.value, 2, 3, mix)
  {
    if mix > 512 then Err(InvalidMixError) else Ok(SetAudioABPositionAsString(mix))
  }

  /** `SetAudioABMixMode_AsString`: `jb` and the mode in hex. */
  function SetAudioABMixModeAsString(mode: OxtelAudioMixMode): (r: string)
    ensures |r| >= 3 && r[..2] == "jb"
    ensures mode < 16 ==> |r| == 3 && HexAt(r, 2, 1, mode)
  {
    ShortHexCommand("jb", mode)
  }

  /** `AudioABAsymmetricTransition_AsString`: `jc`, the direction (one hex
    * digit below 16), then both rates in three hex digits; no range check. */
  function AudioABAsymmetricTransitionAsString(direction: OxtelMixerInput, rate1: uint16, rate2: uint16): (r: string)
    ensures |r| >= 9 && r[..2] == "jc"
    ensures direction < 16 && rate1 < 0x1000 && rate2 < 0x1000 ==>
              |r| == 9 && HexAt(r, 2, 1, direction) && HexAt(r, 3, 3, rate1) && HexAt(r, 6, 3, rate2)
  {
    var fs := [Lit("jc"), HexOf(direction, 0), HexOf(rate1, 3), HexOf(rate2, 3)];
    PowValues();
    Shape(fs);
    Render(fs)
  }

  /** `AudioABFadeToPosition_AsString`: `jd`, mix and duration in three hex
    * digits each. */
  function AudioABFadeToPositionAsString(mix: uint16, duration: uint16): (r: string)
    ensures |r| >= 8 && r[..2] == "jd"
    ensures mix < 0x1000 && duration < 0x1000 ==> |r| == 8 && HexAt(r, 2, 3, mix) && HexAt(r, 5, 3, duration)
  {
    var fs := [Lit("jd"), HexOf(mix, 3), HexOf(duration, 3)];
    PowValues();
    Shape(fs);
    Render(fs)
  }

  /** `AudioABFadeToPosition`: the mix is checked first (above 512), then the
    * duration (above 999). */
  function AudioABFadeToPosition(mix: uint16, duration: uint16): (r: Result<string>)
    ensures mix > 512 ==> r == Err(InvalidMixError)
    ensures mix <= 512 && duration > 999 ==> r == Err(InvalidDurationError)
    ensures r.Ok? <==> mix <= 512 && duration <= 999
    ensures r.Ok? ==> r.value == AudioABFadeToPositionAsString(mix, duration)
                      && |r.value| == 8 && HexAt(r.value, 2, 3, mix) && HexAt(r.value, 5, 3, duration)
  {
    if mix > 512 then Err(InvalidMixError)
    else if duration > 999 then Err(InvalidDurationError)
    else Ok(AudioABFadeToPositionAsString(mix, duration))
  }

  /** `jAG`, the output in two hex digits and the channel mask in four. */
  function GainHead(output: OxtelAudioOutput, channelMask: ChannelMask): (r: string)
    ensures |r| == 9 && r[..3] == "jAG" && HexAt(r, 3, 2, output) && r[5..] == BuildChannelMask(channelMask)
  {
    PowValues();
    HexAtConcat("jAG", output, 2, BuildChannelMask(channelMask));
    var r := "jAG" + Hex(output, 2) + BuildChannelMask(channelMask);
    assert r[5..] == BuildChannelMask(channelMask);
    r
  }

  /** `SetAudioGain_AsString` as evidently intended: the output, the
    * channel mask and then the gain in signed decimal. */
  function SetAudioGainAsString(output: OxtelAudioOutput, channelMask: ChannelMask, gain: int8): (r: string)
    ensures |r| >= 10 && r[..9] == GainHead(output, channelMask)
    ensures Atoi(r[9..]) == Ok(gain as int)
  {
    var head := GainHead(output, channelMask);
    Pow2Eight();
    SignedDecAtoi(gain);
    assert (head + SignedDec(gain))[9..] == SignedDec(gain);
    assert |SignedDec(gain)| >= 1;
    head + SignedDec(gain)
  }

  /** `SetAudioGain` as evidently intended: a nil gain is a nil dereference,
    * a gain outside -100..30 is refused, and otherwise the gain value is
    * sent. */
  function SetAudioGain(output: OxtelAudioOutput, channelMask: ChannelMask, gain: Option<int8>): (r: Result<string>)
    ensures gain.None? ==> r == Err(NilDereference)
    ensures gain.Some? ==> (r.Err? <==> gain.value < -100 || gain.value > 30)
    ensures gain.Some? && r.Err? ==> r.error == InvalidGainError
    ensures r.Ok? ==> gain.Some? && r.value == SetAudioGainAsString(output, channelMask, gain.value)
  {
    match gain
    case None => Err(NilDereference)
    case Some(g) =>
      if g < -100 || g > 30 then Err(InvalidGainError)
      else Ok(SetAudioGainAsString(output, channelMask, g))
  }

  /** `SetAudioGain` as written: `%d` is applied to the pointer, so the
    * command ends in the pointer's address, `address`, whatever the gain. */
  function SetAudioGainAsWritten(output: OxtelAudioOutput, channelMask: ChannelMask, gain: Option<int8>, address: nat): (r: Result<string>)
    ensures r.Err? <==> SetAudioGain(output, channelMask, gain).Err?
    ensures r.Ok? ==> r.value == "jAG" + Hex(output, 2) + BuildChannelMaskAsWritten(channelMask) + Dec(address, 0)
  {
    match gain
    case None => Err(NilDereference)
    case Some(g) =>
      if g < -100 || g > 30 then Err(InvalidGainError)
      else Ok("jAG" + Hex(output, 2) + BuildChannelMaskAsWritten(channelMask) + Dec(address, 0))
  }

  /** Whenever the pointer's address is not the gain itself, the command
    * sent as written differs from the intended one. */
  lemma SetAudioGainPointerFinding(output: OxtelAudioOutput, channelMask: ChannelMask, gain: int8, address: nat)
    requires -100 <= gain <= 30 && !channelMask[15] && address > 30
    ensures SetAudioGainAsWritten(output, channelMask, Some(gain), address).Ok?
    ensures SetAudioGainAsWritten(output, channelMask, Some(gain), address) != SetAudioGain(output, channelMask, Some(gain))
  {
    var written := SetAudioGainAsWritten(output, channelMask, Some(gain), address).value;
    var intended := SetAudioGain(output, channelMask, Some(gain)).value;
    var head := GainHead(output, channelMask);
    assert written == head + Dec(address, 0);
    assert intended == head + SignedDec(gain);
    if written == intended {
      assert Dec(address, 0) == written[9..] == intended[9..] == SignedDec(gain);
      if gain < 0 {
        assert Dec(address, 0)[0] == '-';
        assert Padded(address, 10, false, 0) == Numeral(address, 10, false);
        NumeralFirst(address);
      } else {
        PaddedValue(address, 10, false, 0);
        PaddedValue(gain, 10, false, 0);
      }
    }
  }

  lemma {:induction false} NumeralFirst(v: nat)
    ensures Numeral(v, 10, false)[0] != '-'
    decreases v
  {
    if v >= 10 {
      NumeralFirst(v / 10);
    }
  }

  /** `EnquireAudioGain_AsString`: `jAG`, the output and the channel mask. */
  function EnquireAudioGainAsString(output: OxtelAudioOutput, channelMask: ChannelMask): (r: string)
    ensures r == GainHead(output, channelMask)
    ensures |r| == 9 && HexAt(r, 3, 2, output) && Value(r[5..], 16) == MaskValue(channelMask)
  {
    GainHead(output, channelMask)
  }

  /** `EnquireAudioGain_AsString` as written: the same head, but the mask is
    * printed through the `int16` of `buildChannelMask`, so it matches the
    * intended command exactly when channel 16 is off and otherwise carries
    * a minus sign where the mask's first hex digit belongs. */
  function EnquireAudioGainAsStringAsWritten(output: OxtelAudioOutput, channelMask: ChannelMask): (r: string)
    ensures |r| >= 6 && r[..5] == EnquireAudioGainAsString(output, channelMask)[..5]
    ensures r[5..] == BuildChannelMaskAsWritten(channelMask)
    ensures !channelMask[15] <==> r == EnquireAudioGainAsString(output, channelMask)
    ensures channelMask[15] ==> r[5] == '-'
  {
    var intended := GainHead(output, channelMask);
    PowValues();
    HexAtConcat("jAG", output, 2, BuildChannelMaskAsWritten(channelMask));
    var r := "jAG" + Hex(output, 2) + BuildChannelMaskAsWritten(channelMask);
    assert r[..5] == intended[..5] && r[5..] == BuildChannelMaskAsWritten(channelMask);
    if channelMask[15] then
      assert r[5] == '-' && DigitValue(intended[5]) < 16;
      r
    else
      assert r == intended[..5] + intended[5..];
      r
  }

  /** `%016b` of a signed value: a negative mask prints a minus sign. */
  function BinaryMask(v: int): string
  {
    SignedPadded(v, 2, false, 16)
  }

  /** `EnquireAudioGain`: the source `[0:2]` in hex, the channel mask
    * `[2:6]` as a signed 16-bit hex number printed back in binary, and the
    * gain `[6:]` in decimal, cut to eight bits. */
  function EnquireAudioGain(val: string): (r: Result<AudioGainResponse>)
    ensures r.Ok? ==> |val| >= 6 && HexAt(val, 0, 2, r.value.source)
    ensures r.Ok? ==> ParseInt(val[2..6], 16, 16).Ok? && r.value.channelMask == BinaryMask(ParseInt(val[2..6], 16, 16).value)
    ensures r.Ok? ==> Atoi(val[6..]).Ok? && r.value.gain == ToInt8(Atoi(val[6..]).value)
    ensures |val| < 2 ==> r == Err(IndexOutOfRange)
  {
    Pow2Eight();
    var source :- HexSlice(val, 0, 2, 8);
    if |val| < 6 then Err(IndexOutOfRange)
    else
      var mask :- ParseI16(val[2..6], 16);
      var gain :- Atoi(val[6..]);
      Ok(AudioGainResponse(source, BinaryMask(mask), ToInt8(gain)))
  }

  /** A gain reply laid out like the gain command's body decodes to the
    * output, the mask in binary and the gain, as long as channel 16 (the
    * sign bit) is off. */
  lemma AudioGainRoundTrip(output: OxtelAudioOutput, channelMask: ChannelMask, gain: int8)
    requires !channelMask[15]
    ensures EnquireAudioGain(SetAudioGainAsString(output, channelMask, gain)[3..])
            == Ok(AudioGainResponse(output, BinaryMask(MaskValue(channelMask)), gain))
  {
    var val := SetAudioGainAsString(output, channelMask, gain)[3..];
    GainFields(output, channelMask, gain);
    Pow2Eight();
    assert HexSlice(val, 0, 2, 8) == Ok(output as nat);
    assert ParseI16(val[2..6], 16) == Ok(MaskValue(channelMask) as int16);
    assert Atoi(val[6..]) == Ok(gain as int);
  }

  /** The three fields of a gain body, each where the enquiry reads it. */
  lemma GainFields(output: OxtelAudioOutput, channelMask: ChannelMask, gain: int8)
    requires !channelMask[15]
    ensures var val := SetAudioGainAsString(output, channelMask, gain)[3..];
      && |val| >= 7 && HexAt(val, 0, 2, output)
      && ParseInt(val[2..6], 16, 16) == Ok(MaskValue(channelMask))
      && Atoi(val[6..]) == Ok(gain as int)
  {
    GainBodyFields(output, channelMask, gain, SetAudioGainAsString(output, channelMask, gain));
  }

  lemma GainBodyFields(output: OxtelAudioOutput, channelMask: ChannelMask, gain: int8, s: string)
    requires !channelMask[15]
    requires |s| >= 10 && s[..9] == GainHead(output, channelMask) && Atoi(s[9..]) == Ok(gain as int)
    ensures var val := s[3..];
      && |val| >= 7 && HexAt(val, 0, 2, output)
      && ParseInt(val[2..6], 16, 16) == Ok(MaskValue(channelMask))
      && Atoi(val[6..]) == Ok(gain as int)
  {
    var val := s[3..];
    GainHeadFields(output, channelMask, s);
    HexAtShift(s, 3, 0, 2, output);
    assert val[2..6] == s[5..9];
    MaskParse(channelMask);
    assert val[6..] == s[9..];
  }

  /** A string that starts with the gain head has the output at 3 and the
    * mask at 5. */
  lemma GainHeadFields(output: OxtelAudioOutput, channelMask: ChannelMask, s: string)
    requires |s| >= 9 && s[..9] == GainHead(output, channelMask)
    ensures HexAt(s, 3, 2, output) && s[5..9] == BuildChannelMask(channelMask)
  {
    var head := GainHead(output, channelMask);
    assert s[3..5] == head[3..5];
    assert s[5..9] == head[5..];
  }

  lemma MaskParse(channelMask: ChannelMask)
    requires !channelMask[15]
    ensures ParseInt(BuildChannelMask(channelMask), 16, 16) == Ok(MaskValue(channelMask))
  {
    MaskValueHigh(channelMask);
    Pow2Eight();
    PaddedParseInt(MaskValue(channelMask), 16, true, 4, 16);
  }
}
