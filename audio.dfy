/// `audio.go`: pop suppression and the Dolby encoder (`hDP`, `hDE`, `hDA`):
/// a three-letter command, a one-digit source or input, and a one-digit
/// setting.
module Audio {
  import opened GoInts
  import opened Errors
  import opened GoFmt
  import opened GoStrconv
  import opened OxtelTypes
  import opened Utils
  import opened Fields

  /** The highest Dolby encoder profile number (profiles 0 to 4). */
  const MaxDolbyProfile: uint8 := 4

  /** `AudioPopSuppression_AsString`: `hDP`, the source, and `1` to enable or
    * `0` to disable. */
  function AudioPopSuppressionAsString(source: OxtelAudioSource, enable: bool): (r: string)
    ensures |r| >= 5 && r[..3] == "hDP"
    ensures source < 16 ==> |r| == 5 && HexAt(r, 3, 1, source) && r[4] == (if enable then '1' else '0')
  {
    var r := TwoDigitCommand("hDP", source, BoolToInt(enable) as nat);
    FlagDigitAt(r, 4, enable);
    r
  }

  /** `PauseResumeDolbyEncoder_AsString`: `hDE`, the input, and `1` to pause
    * or `0` to resume. */
  function PauseResumeDolbyEncoderAsString(input: OxtelMixerInput, pause: bool): (r: string)
    ensures |r| >= 5 && r[..3] == "hDE"
    ensures input < 16 ==> |r| == 5 && HexAt(r, 3, 1, input) && r[4] == (if pause then '1' else '0')
  {
    var r := TwoDigitCommand("hDE", input, BoolToInt(pause) as nat);
    FlagDigitAt(r, 4, pause);
    r
  }

  /** A one-digit field holding `boolToInt(b)` is the character `1` or `0`. */
  lemma FlagDigitAt(r: string, i: nat, b: bool)
    ensures HexAt(r, i, 1, BoolToInt(b) as nat) ==> r[i] == (if b then '1' else '0')
  {
    if HexAt(r, i, 1, BoolToInt(b) as nat) {
      assert r[i..i + 1] == [r[i]];
    }
  }

  /** `SetDolbyEncoderProfile_AsString`: `hDA`, the input and the profile. */
  function SetDolbyEncoderProfileAsString(input: OxtelMixerInput, profile: uint8): (r: string)
    ensures |r| >= 5 && r[..3] == "hDA"
    ensures input < 16 ==> HexAt(r, 3, 1, input)
    ensures input < 16 && profile < 16 ==> |r| == 5 && HexAt(r, 4, 1, profile)
  {
    TwoDigitCommand("hDA", input, profile)
  }

  /** `SetDolbyEncoderProfile`: a profile above 4 is refused. */
  function SetDolbyEncoderProfile(input: OxtelMixerInput, profile: uint8): (r: Result<string>)
    ensures r.Err? <==> profile > MaxDolbyProfile
    ensures r.Err? ==> r.error == InvalidDolbyProfileError
    ensures r.Ok? ==> r.value == SetDolbyEncoderProfileAsString(input, profile)
  {
    if profile > MaxDolbyProfile then Err(InvalidDolbyProfileError)
    else Ok(SetDolbyEncoderProfileAsString(input, profile))
  }

  /** `EnquireDolbyEncoderProfile_AsString`: `hDA` and the input. */
  function EnquireDolbyEncoderProfileAsString(input: OxtelMixerInput): (r: string)
    ensures |r| >= 4 && r[..3] == "hDA" && ParseUint(r[3..], 16, 8) == Ok(input as nat)
    ensures input < 16 ==> |r| == 4
  {
    PowValues();
    Pow2Eight();
    HexParse(input, 1, 8);
    if input < 16 then HexLength(input, 1); "hDA" + Hex(input, 1)
    else "hDA" + Hex(input, 1)
  }

  /** `EnquireDolbyEncoderProfile`: the whole body is a hex number. */
  function EnquireDolbyEncoderProfile(val: string): (r: Result<uint64>)
    ensures r.Ok? <==> ParseUint(val, 16, 64).Ok?
    ensures r.Ok? ==> r.value as nat == ParseUint(val, 16, 64).value
    ensures r.Err? ==> r.error == NumError
  {
    var v :- ParseUint(val, 16, 64);
    Pow2SixtyFour();
    Ok(v as uint64)
  }

  /** A profile the set command accepts is what the enquiry reads back from
    * a reply carrying the set command's profile digit; the set command is
    * the enquiry with that digit appended. */
  lemma DolbyProfileRoundTrip(input: OxtelMixerInput, profile: uint8)
    requires input < 16 && profile <= MaxDolbyProfile
    ensures var cmd := SetDolbyEncoderProfile(input, profile);
      && cmd.Ok?
      && cmd.value[..4] == EnquireDolbyEncoderProfileAsString(input)
      && EnquireDolbyEncoderProfile(cmd.value[4..]) == Ok(profile as uint64)
  {
    var cmd := SetDolbyEncoderProfileAsString(input, profile);
    var enquiry := EnquireDolbyEncoderProfileAsString(input);
    assert cmd[4..] == cmd[4..5];
    assert cmd[..4] == enquiry by {
      PowValues();
      HexLength(input, 1);
      assert cmd == "hDA" + Hex(input, 1) + Hex(profile, 1);
      assert enquiry == "hDA" + Hex(input, 1);
    }
  }
}
