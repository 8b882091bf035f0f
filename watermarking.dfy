/// `watermarking.go`: the SDI input colour-space override (`hCSI`) and the
/// Kantar watermarking channel name (`hKWM`).
module Watermarking {
  import opened GoInts
  import opened Errors
  import opened GoFmt
  import opened GoStrconv
  import opened OxtelTypes
  import opened Fields

  /** The highest starting audio channel the Kantar command accepts. */
  const MaxStartingChannel: uint8 := 15

  /** `OverrideSDIInputColorSpace_AsString`: `hCSI`, the input and the colour
    * space, one hex digit each when below 16. */
  function OverrideSDIInputColorSpaceAsString(input: OxtelMixerInput, colorSpace: OxtelColorSpace): (r: string)
    ensures |r| >= 6 && r[..4] == "hCSI"
    ensures input < 16 ==> HexAt(r, 4, 1, input)
    ensures input < 16 && colorSpace < 16 ==> |r| == 6 && HexAt(r, 5, 1, colorSpace)
  {
    TwoDigitCommand("hCSI", input, colorSpace)
  }

  /** `ChangeKantarWatermarkingChannelName_AsString`: `hKWM`, the output in
    * hex, the starting channel in two hex digits and the audience name as
    * given. */
  function ChangeKantarWatermarkingChannelNameAsString(output: OxtelKantarOutput, startingChannel: uint8, audienceName: string): (r: string)
    ensures |r| >= 7 + |audienceName| && r[..4] == "hKWM" && r[|r| - |audienceName|..] == audienceName
    ensures HexAt(r, |r| - |audienceName| - 2, 2, startingChannel)
    ensures output < 16 ==> |r| == 7 + |audienceName| && HexAt(r, 4, 1, output)
  {
    KantarFields(output, startingChannel, audienceName);
    "hKWM" + Hex(output, 1) + Hex(startingChannel, 2) + audienceName
  }

  lemma KantarFields(output: OxtelKantarOutput, startingChannel: uint8, audienceName: string)
    ensures var r := "hKWM" + Hex(output, 1) + Hex(startingChannel, 2) + audienceName;
      && |r| >= 7 + |audienceName| && r[..4] == "hKWM" && r[|r| - |audienceName|..] == audienceName
      && HexAt(r, |r| - |audienceName| - 2, 2, startingChannel)
      && (output < 16 ==> |r| == 7 + |audienceName| && HexAt(r, 4, 1, output))
  {
    PowValues();
    var head := "hKWM" + Hex(output, 1);
    var h2 := head + Hex(startingChannel, 2);
    assert |Hex(output, 1)| >= 1;
    HexAtAppend(head, startingChannel, 2);
    HexAtExtend(h2, audienceName, |head|, 2, startingChannel);
    var r := h2 + audienceName;
    assert r[..4] == "hKWM" && r[|r| - |audienceName|..] == audienceName;
    if output < 16 {
      HexAtAppend("hKWM", output, 1);
      HexAtExtend(head, Hex(startingChannel, 2), 4, 1, output);
      HexAtExtend(h2, audienceName, 4, 1, output);
    }
  }

  /** `ChangeKantarWatermarkingChannelName`: a starting channel above 15 is
    * refused. */
  function ChangeKantarWatermarkingChannelName(output: OxtelKantarOutput, startingChannel: uint8, audienceName: string): (r: Result<string>)
    ensures r.Err? <==> startingChannel > MaxStartingChannel
    ensures r.Err? ==> r.error == InvalidAudioChannelError
    ensures r.Ok? ==> r.value == ChangeKantarWatermarkingChannelNameAsString(output, startingChannel, audienceName)
  {
    if startingChannel > MaxStartingChannel then Err(InvalidAudioChannelError)
    else Ok(ChangeKantarWatermarkingChannelNameAsString(output, startingChannel, audienceName))
  }

  /** An accepted starting channel goes out as `0` and one hex digit. */
  lemma KantarChannelLeadingZero(output: OxtelKantarOutput, startingChannel: uint8, audienceName: string)
    requires startingChannel <= MaxStartingChannel
    ensures var r := ChangeKantarWatermarkingChannelName(output, startingChannel, audienceName);
      r.Ok? && r.value[|r.value| - |audienceName| - 2] == '0'
  {
    var r := ChangeKantarWatermarkingChannelNameAsString(output, startingChannel, audienceName);
    var k := |r| - |audienceName| - 2;
    assert HexAt(r, k, 2, startingChannel);
    var s := r[k..k + 2];
    ValueSnoc([s[0]], s[1], 16);
    ValueSnoc([], s[0], 16);
    assert [] + [s[0]] == [s[0]];
    assert [s[0]] + [s[1]] == s;
  }
}
