/// `audio_profile.go`: the per-source audio profile (`jAP`) and the
/// switch for its tallies (`jAT`).
module AudioProfile {
  import opened GoInts
  import opened Errors
  import opened GoFmt
  import opened GoStrconv
  import opened GoStrings
  import opened OxtelTypes
  import opened Utils
  import opened Transport
  import opened Fields

  /** The highest profile `SetAudioProfile` accepts. 0 selects the
    * system-wide default. */
  const MaxAudioProfile: uint8 := 16

  /** `SetAudioProfile_AsString`: `jAP`, the source in hex, then the profile
    * as two hex digits. */
  function SetAudioProfileAsString(source: OxtelAudioSource, profile: uint8): (r: string)
    ensures |r| >= 6 && r[..3] == "jAP" && ParseUint(r[3..|r| - 2], 16, 8) == Ok(source as nat)
    ensures HexAt(r, |r| - 2, 2, profile)
    ensures source < 16 ==> |r| == 6 && HexAt(r, 3, 1, source)
  {
    SetAudioProfileFields(source, profile);
    FieldCommand("jAP", source, profile, "")
  }

  lemma SetAudioProfileFields(source: OxtelAudioSource, profile: uint8)
    ensures var r := FieldCommand("jAP", source, profile, "");
      && |r| >= 6 && r[..3] == "jAP" && ParseUint(r[3..|r| - 2], 16, 8) == Ok(source as nat)
      && HexAt(r, |r| - 2, 2, profile)
      && (source < 16 ==> |r| == 6 && HexAt(r, 3, 1, source))
  {
    FieldCommandFields("jAP", source, profile, "");
    var r := FieldCommand("jAP", source, profile, "");
    var n := |Hex(source, 0)|;
    assert |"jAP"| == 3 && |""| == 0 && n >= 1;
    assert |r| == n + 5 && r[3..|r| - 2] == r[3..3 + n];
  }

  /** `SetAudioProfile`: a profile above 16 is refused. */
  function SetAudioProfile(source: OxtelAudioSource, profile: uint8): (r: Result<string>)
    ensures r.Err? <==> profile > MaxAudioProfile
    ensures r.Err? ==> r.error == InvalidAudioProfileError
    ensures r.Ok? ==> r.value == SetAudioProfileAsString(source, profile)
  {
    if profile > MaxAudioProfile then Err(InvalidAudioProfileError)
    else Ok(SetAudioProfileAsString(source, profile))
  }

  /** `EnquireAudioProfile_AsString`: `jAP` and the source in hex. */
  function EnquireAudioProfileAsString(source: OxtelAudioSource): (r: string)
    ensures |r| >= 4 && r[..3] == "jAP" && ParseUint(r[3..], 16, 8) == Ok(source as nat)
  {
    Pow2Eight();
    HexParse(source, 0, 8);
    assert ("jAP" + Hex(source, 0))[3..] == Hex(source, 0);
    "jAP" + Hex(source, 0)
  }

  /** `EnquireAudioProfile`: the source is the hex digit `[0]`, the profile
    * the rest of the body as an 8-bit hex number; an empty body panics. */
  function EnquireAudioProfile(val: string): (r: Result<AudioProfileResponse>)
    ensures r.Ok? <==> |val| >= 1 && DigitValue(val[0]) < 16 && ParseUint(val[1..], 16, 8).Ok?
    ensures r.Ok? ==> r.value == AudioProfileResponse(DigitValue(val[0]), ParseUint(val[1..], 16, 8).value)
    ensures |val| == 0 ==> r == Err(IndexOutOfRange)
    ensures |val| >= 1 && r.Err? ==> r.error == NumError
  {
    var sourceText :- CharAt(val, 0);
    HexCharParse(val[0]);
    var audioSource :- ParseU8(sourceText, 16);
    var profile :- ParseU8(val[1..], 16);
    Ok(AudioProfileResponse(audioSource, profile))
  }

  /** For a source below 16, the body of the set command reads back as its
    * source and profile, both through the enquiry and through the tally the
    * device sends (`jAY` and the same body). */
  lemma AudioProfileRoundTrip(source: OxtelAudioSource, profile: uint8)
    requires source < 16
    ensures EnquireAudioProfile(SetAudioProfileAsString(source, profile)[3..]) == Ok(AudioProfileResponse(source, profile))
    ensures var tally := "jAY" + SetAudioProfileAsString(source, profile)[3..];
      Classify(tally + ":") == Ok(AudioProfileTally(tally, source, profile))
  {
    var body := SetAudioProfileAsString(source, profile)[3..];
    AudioProfileBody(source, profile);
    var tally := "jAY" + body;
    var message := tally + ":";
    assert message[..3] == "jAY";
    ClassifyAudioProfile(message);
    assert message[..|message| - 1] == tally && tally[3..] == body;
  }

  /** The body of the set command: the source digit, then the profile in
    * two hex digits. */
  lemma AudioProfileBody(source: OxtelAudioSource, profile: uint8)
    requires source < 16
    ensures var body := SetAudioProfileAsString(source, profile)[3..];
      && |body| == 3 && DigitValue(body[0]) == source as nat
      && ParseUint(body[1..], 16, 8) == Ok(profile as nat) && body[1..3] == body[1..]
  {
    var r := SetAudioProfileAsString(source, profile);
    var body := r[3..];
    HexAtOne(r, 3, source);
    Pow2Eight();
    ParseNarrow(r[4..6], 16, 8);
    assert body[0] == r[3] && body[1..] == r[4..6];
  }

  /** A frame starting with `jAY` goes to the audio-profile tally decoder. */
  lemma ClassifyAudioProfile(message: string)
    requires StartsWith(message, "jAY")
    ensures Classify(message) == DecodeAudioProfileTally(message[..|message| - 1])
  {
    assert message[..1] == "j" && message[..2] == "jA" && message[..3] == "jAY";
    assert "jA" != "Y9" && "jA" != "YA" && "jA" != "YB" && "jA" != "YS" && "jA" != "Y6";
  }

  /** A one-character body parses as an 8-bit hex number exactly when it is
    * a hex digit. */
  lemma HexCharParse(c: char)
    ensures ParseUint([c], 16, 8) == if DigitValue(c) < 16 then Ok(DigitValue(c)) else Err(NumError)
  {
    if DigitValue(c) < 16 {
      HexDigitParse(c, 8);
    } else {
      assert [c][0] == c;
    }
  }

  /** `EnableAudioProfileTallies_AsString`: `jAT1` to enable, `jAT0` to disable. */
  function EnableAudioProfileTalliesAsString(enable: bool): (r: string)
    ensures r == if enable then "jAT1" else "jAT0"
  {
    "jAT" + Hex(BoolToInt(enable) as nat, 0)
  }

  const EnquireAudioProfileTalliesCommand := "jAT"

  /** `EnquireAudioProfileTallies`: the body is a Go boolean. */
  function EnquireAudioProfileTallies(val: string): (r: Result<bool>)
    ensures r.Ok? <==> val in {"1", "t", "T", "TRUE", "true", "True", "0", "f", "F", "FALSE", "false", "False"}
    ensures r.Ok? ==> (r.value <==> val in {"1", "t", "T", "TRUE", "true", "True"})
    ensures r.Err? ==> r.error == NumError
  {
    ParseBool(val)
  }

  /** The enquiry reads back the flag the enable command sent. */
  lemma AudioProfileTalliesRoundTrip(enable: bool)
    ensures EnquireAudioProfileTallies(EnableAudioProfileTalliesAsString(enable)[3..]) == Ok(enable)
  {
    var r := EnableAudioProfileTalliesAsString(enable);
    assert r[3..] == if enable then "1" else "0";
  }
}
