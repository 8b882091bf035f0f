/// `audio_loudness.go`: the Junger loudness commands (`jAL*`), their sdi and
/// profile guards, and the replies that list the channels with loudness
/// configured as two-hex-digit pairs.
module AudioLoudness {
  import opened GoInts
  import opened Errors
  import opened GoFmt
  import opened GoStrconv
  import opened OxtelTypes
  import opened Utils
  import opened Layout
  import opened Fields

  const GetLoudnessLicenseStatusCommand := "jALL"

  // ---------------------------------------------------------------------
  // Loudness programs

  /** The command text of an optional program; `buildAudioProgramCommand`
    * returns the empty string with its error. */
  function ProgramText(program: Option<AudioProgram>): string
  {
    match program
    case None => ""
    case Some(p) => match BuildAudioProgramCommand(p) case Ok(s) => s case Err(_) => ""
  }

  /** `SetAudioLoudness`: the first program's command followed by the
    * second's, if any; an invalid channel in either refuses the whole. */
  function SetAudioLoudness(first: AudioProgram, second: Option<AudioProgram>): (r: Result<string>)
    ensures r.Err? <==> BuildAudioProgramCommand(first).Err? || (second.Some? && BuildAudioProgramCommand(second.value).Err?)
    ensures r.Err? ==> r.error == InvalidAudioProfileError
    ensures r.Ok? ==> r.value == SetAudioLoudnessAsString(first, second)
    ensures r.Ok? ==> var n := |BuildAudioProgramCommand(first).value|;
              && n <= |r.value| && r.value[..n] == BuildAudioProgramCommand(first).value
              && (second.None? ==> |r.value| == n)
              && (second.Some? ==> r.value[n..] == BuildAudioProgramCommand(second.value).value)
  {
    var msg :- BuildAudioProgramCommand(first);
    if second.None? then
      assert msg + "" == msg;
      Ok(msg)
    else
      var msg2 :- BuildAudioProgramCommand(second.value);
      assert (msg + msg2)[..|msg|] == msg && (msg + msg2)[|msg|..] == msg2;
      Ok(msg + msg2)
  }

  /** `SetAudioLoudness_AsString`: the same concatenation, where an invalid
    * program contributes nothing. */
  function SetAudioLoudnessAsString(first: AudioProgram, second: Option<AudioProgram>): (r: string)
    ensures BuildAudioProgramCommand(first).Err? ==> r == ProgramText(second)
    ensures second.None? ==> r == ProgramText(Some(first))
    ensures BuildAudioProgramCommand(first).Ok? && second.Some? && BuildAudioProgramCommand(second.value).Err? ==>
              r == BuildAudioProgramCommand(first).value
    ensures BuildAudioProgramCommand(first).Ok? && second.Some? && BuildAudioProgramCommand(second.value).Ok? ==>
              r == BuildAudioProgramCommand(first).value + BuildAudioProgramCommand(second.value).value
    ensures BuildAudioProgramCommand(first).Err? && (second.None? || BuildAudioProgramCommand(second.value).Err?) ==> r == ""
  {
    ProgramText(Some(first)) + ProgramText(second)
  }

  // ---------------------------------------------------------------------
  // Channel lists

  /** `strconv.ParseUint(val[j:j+2], 16, 8)`: the pair at `j`. */
  function Pair(val: string, j: nat): Result<nat>
  {
    HexSlice(val, j, j + 2, 8)
  }

  /** The loop visits `start`, `start + 2`, ... while below the length. */
  predicate PairStart(val: string, start: nat, j: nat)
  {
    start <= j < |val| && (j - start) % 2 == 0
  }

  ghost predicate AllPairsHex(val: string, start: nat)
  {
    forall j: nat :: PairStart(val, start, j) ==> Pair(val, j).Ok?
  }

  /** Some visited pair reads as `c`. */
  ghost predicate Listed(val: string, start: nat, c: nat)
  {
    exists j: nat :: PairStart(val, start, j) && Pair(val, j) == Ok(c)
  }

  /** The pair at `j` is the first one that does not read. */
  ghost predicate FirstBadPair(val: string, start: nat, j: nat)
  {
    PairStart(val, start, j) && Pair(val, j).Err?
    && forall i: nat :: PairStart(val, start, i) && i < j ==> Pair(val, i).Ok?
  }

  /** The `for i := start; i < len(val); i += 2` loop of `GetAudioLoudness`:
    * channel k is flagged when some pair reads k, other values are ignored,
    * and the first pair that is not hex (or a lone last digit) is the error. */
  method ScanChannels(val: string, start: nat) returns (r: Result<LoudnessChannels>)
    ensures r.Ok? <==> AllPairsHex(val, start)
    ensures r.Ok? ==> forall k :: 0 <= k < 8 ==> (r.value[k] <==> Listed(val, start, k + 1))
    ensures r.Err? ==> exists j: nat :: FirstBadPair(val, start, j) && Pair(val, j) == Err(r.error)
  {
    var channels: LoudnessChannels := seq(8, _ => false);
    var i := start;
    ghost var n := 0;
    while i < |val|
      invariant i == start + 2 * n
      invariant i > |val| ==> i == start
      invariant OkBefore(val, start, i)
      invariant forall k :: 0 <= k < 8 ==> (channels[k] <==> ListedBefore(val, start, i, k + 1))
      decreases |val| - i
    {
      var num := Pair(val, i);
      PairStartAt(val, start, n);
      if num.Err? {
        StepBefore(val, start, i);
        return Err(num.error);
      }
      MarkStep(val, start, i, channels, num.value);
      if 1 <= num.value <= 8 {
        channels := channels[num.value - 1 := true];
      }
      i, n := i + 2, n + 1;
    }
    AllBefore(val, start, i);
    return Ok(channels);
  }

  /** Every pair before `i` reads. */
  ghost predicate OkBefore(val: string, start: nat, i: nat)
  {
    forall j: nat :: PairStart(val, start, j) && j < i ==> Pair(val, j).Ok?
  }

  /** Some pair before `i` reads as `c`. */
  ghost predicate ListedBefore(val: string, start: nat, i: nat, c: nat)
  {
    exists j: nat :: PairStart(val, start, j) && j < i && Pair(val, j) == Ok(c)
  }

  /** One step of the loop adds exactly the pair at `i`. */
  lemma StepBefore(val: string, start: nat, i: nat)
    requires PairStart(val, start, i)
    ensures OkBefore(val, start, i + 2) <==> OkBefore(val, start, i) && Pair(val, i).Ok?
    ensures forall c: nat :: ListedBefore(val, start, i + 2, c) <==> ListedBefore(val, start, i, c) || Pair(val, i) == Ok(c)
    ensures OkBefore(val, start, i) && Pair(val, i).Err? ==> FirstBadPair(val, start, i)
  {
    forall j: nat | PairStart(val, start, j) && j < i + 2
      ensures j < i || j == i
    {
    }
  }

  /** A pair that reads as `v` flags channel `v` when it is one of the eight
    * and leaves the other flags alone. */
  lemma MarkStep(val: string, start: nat, i: nat, channels: LoudnessChannels, v: nat)
    requires PairStart(val, start, i) && Pair(val, i) == Ok(v) && OkBefore(val, start, i)
    requires forall k :: 0 <= k < 8 ==> (channels[k] <==> ListedBefore(val, start, i, k + 1))
    ensures OkBefore(val, start, i + 2)
    ensures var marked := if 1 <= v <= 8 then channels[v - 1 := true] else channels;
      forall k :: 0 <= k < 8 ==> (marked[k] <==> ListedBefore(val, start, i + 2, k + 1))
  {
    StepBefore(val, start, i);
  }

  /** Past the end, "before `i`" is every pair. */
  lemma AllBefore(val: string, start: nat, i: nat)
    requires i >= |val|
    ensures OkBefore(val, start, i) <==> AllPairsHex(val, start)
    ensures forall c: nat :: ListedBefore(val, start, i, c) <==> Listed(val, start, c)
  {
  }

  /** `GetAudioLoudness_AsString`: `jAL` and the sdi, then the channel if
    * one is given, two hex digits each. */
  function GetAudioLoudnessAsString(sdi: uint8, channel: Option<uint8>): (r: string)
    ensures channel.None? ==> |r| == 5 && r[..3] == "jAL" && HexAt(r, 3, 2, sdi)
    ensures channel.Some? ==> |r| == 7 && r[..3] == "jAL" && HexAt(r, 3, 2, sdi) && HexAt(r, 5, 2, channel.value)
  {
    PowValues();
    match channel
    case None =>
      var fs := [Lit("jAL"), HexOf(sdi, 2)];
      Shape(fs);
      Render(fs)
    case Some(c) =>
      var fs := [Lit("jAL"), HexOf(sdi, 2), HexOf(c, 2)];
      Shape(fs);
      Render(fs)
  }

  /** `GetAudioLoudness` on the reply body `val`. Without a channel the
    * whole body is a channel list. With one, a channel above 8 is refused
    * before anything is sent, and the body is the sdi `[0]`, the program
    * `[1:3]`, the preset `[3:5]` and then the channel list. */
  method GetAudioLoudness(channel: Option<uint8>, val: string) returns (r: Result<AudioLoudnessResponse>)
    ensures channel.Some? && channel.value > 8 ==> r == Err(InvalidAudioProfileError)
    ensures channel.None? ==> (r.Ok? <==> AllPairsHex(val, 0))
    ensures channel.None? && r.Ok? ==>
              && r.value.sdi.None? && r.value.audioProgram.None? && r.value.jungerPreset.None?
              && forall k :: 0 <= k < 8 ==> (r.value.channels[k] <==> Listed(val, 0, k + 1))
    ensures channel.Some? && channel.value <= 8 ==>
              (r.Ok? <==> HeaderOk(val) && AllPairsHex(val, 5))
    ensures channel.Some? && channel.value <= 8 && !HeaderOk(val) ==> r == Err(HeaderError(val))
    ensures channel.Some? && r.Ok? ==>
              && r.value.sdi.Some? && HexAt(val, 0, 1, r.value.sdi.value)
              && r.value.audioProgram.Some? && HexAt(val, 1, 2, r.value.audioProgram.value)
              && r.value.jungerPreset.Some? && HexAt(val, 3, 2, r.value.jungerPreset.value)
              && forall k :: 0 <= k < 8 ==> (r.value.channels[k] <==> Listed(val, 5, k + 1))
  {
    Pow2Eight();
    if channel.None? {
      var channels := ScanChannels(val, 0);
      if channels.Err? {
        return Err(channels.error);
      }
      return Ok(AudioLoudnessResponse(channels.value, None, None, None));
    }
    if channel.value > 8 {
      return Err(InvalidAudioProfileError);
    }
    var sdi := HexSlice(val, 0, 1, 8);
    if sdi.Err? {
      return Err(sdi.error);
    }
    var program := HexSlice(val, 1, 3, 8);
    if program.Err? {
      return Err(program.error);
    }
    var preset := HexSlice(val, 3, 5, 8);
    if preset.Err? {
      return Err(preset.error);
    }
    var channels := ScanChannels(val, 5);
    if channels.Err? {
      return Err(channels.error);
    }
    return Ok(AudioLoudnessResponse(channels.value, Some(sdi.value), Some(program.value), Some(preset.value)));
  }

  /** The three header fields of a single-channel reply all read. */
  predicate HeaderOk(val: string)
  {
    && HexSlice(val, 0, 1, 8).Ok? && HexSlice(val, 1, 3, 8).Ok? && HexSlice(val, 3, 5, 8).Ok?
  }

  /** The error of the first header field that does not read. */
  function HeaderError(val: string): Error
    requires !HeaderOk(val)
  {
    if HexSlice(val, 0, 1, 8).Err? then HexSlice(val, 0, 1, 8).error
    else if HexSlice(val, 1, 3, 8).Err? then HexSlice(val, 1, 3, 8).error
    else HexSlice(val, 3, 5, 8).error
  }

  /** Reading a channel list from `start`: every pair reads, and a value is
    * listed exactly when it is one of the channels. */
  lemma ChannelListScan(val: string, start: nat, channels: seq<uint8>)
    requires start <= |val| && val[start..] == HexBytes(channels)
    ensures AllPairsHex(val, start)
    ensures forall c: nat :: Listed(val, start, c) <==> c in channels
  {
    ListBodyOf(val, start, channels);
    PairsOfList(val, start, channels);
    ListedOfList(val, start, channels);
  }

  /** From `start` on, `val` holds the channels as consecutive pairs. */
  ghost predicate ListBody(val: string, start: nat, channels: seq<uint8>)
  {
    |val| == start + 2 * |channels|
    && forall idx :: 0 <= idx < |channels| ==> Pair(val, start + 2 * idx) == Ok(channels[idx] as nat)
  }

  lemma ListBodyOf(val: string, start: nat, channels: seq<uint8>)
    requires start <= |val| && val[start..] == HexBytes(channels)
    ensures ListBody(val, start, channels)
  {
    forall idx | 0 <= idx < |channels|
      ensures Pair(val, start + 2 * idx) == Ok(channels[idx] as nat)
    {
      ListPair(val, start, channels, idx);
    }
  }

  /** Every visited pair reads as one of the channels. */
  lemma PairsOfList(val: string, start: nat, channels: seq<uint8>)
    requires ListBody(val, start, channels)
    ensures forall j: nat :: PairStart(val, start, j) ==>
              exists idx :: 0 <= idx < |channels| && Pair(val, j) == Ok(channels[idx] as nat)
  {
    forall j: nat | PairStart(val, start, j)
      ensures exists idx :: 0 <= idx < |channels| && Pair(val, j) == Ok(channels[idx] as nat)
    {
      PairIndex(val, start, j, |channels|);
      var idx := (j - start) / 2;
      assert Pair(val, start + 2 * idx) == Ok(channels[idx] as nat);
    }
  }

  /** Every channel of the list is visited. */
  lemma ListedOfList(val: string, start: nat, channels: seq<uint8>)
    requires ListBody(val, start, channels)
    ensures forall c: nat :: c in channels ==> Listed(val, start, c)
  {
    forall c: nat | c in channels
      ensures Listed(val, start, c)
    {
      var idx :| 0 <= idx < |channels| && channels[idx] == c;
      assert Pair(val, start + 2 * idx) == Ok(c);
      PairStartAt(val, start, idx);
    }
  }

  /** A visited position is the start of pair `(j - start) / 2`. */
  lemma PairIndex(val: string, start: nat, j: nat, count: nat)
    requires PairStart(val, start, j) && |val| == start + 2 * count
    ensures j == start + 2 * ((j - start) / 2) && (j - start) / 2 < count
  {
    var d := j - start;
    assert d == 2 * (d / 2) + d % 2;
  }

  lemma PairStartAt(val: string, start: nat, idx: nat)
    requires start + 2 * idx < |val|
    ensures PairStart(val, start, start + 2 * idx)
  {
    assert (start + 2 * idx - start) == 2 * idx;
  }

  /** Pair `idx` of a channel list is channel `idx`. */
  lemma ListPair(val: string, start: nat, channels: seq<uint8>, idx: nat)
    requires start <= |val| && val[start..] == HexBytes(channels) && idx < |channels|
    ensures PairStart(val, start, start + 2 * idx)
    ensures Pair(val, start + 2 * idx) == Ok(channels[idx] as nat)
  {
    HexByteOf(channels, idx);
    PairShift(val, start, HexBytes(channels), idx, channels[idx] as nat);
    PairStartAt(val, start, idx);
  }

  /** A pair read from a suffix is the pair at the shifted position. */
  lemma PairShift(val: string, start: nat, suffix: string, idx: nat, v: nat)
    requires start <= |val| && val[start..] == suffix && 2 * idx + 2 <= |suffix|
    requires HexSlice(suffix, 2 * idx, 2 * idx + 2, 8) == Ok(v)
    ensures Pair(val, start + 2 * idx) == Ok(v)
  {
    var j := start + 2 * idx;
    assert val[j..j + 2] == suffix[2 * idx..2 * idx + 2];
    HexSliceSame(val, j, suffix, 2 * idx, 2, 8);
  }

  /** A reply listing `channels` flags exactly the loudness channels among
    * them. */
  lemma AllChannelsReply(channels: seq<uint8>)
    ensures AllPairsHex(HexBytes(channels), 0)
    ensures forall c: nat :: Listed(HexBytes(channels), 0, c) <==> c in channels
  {
    var val := HexBytes(channels);
    assert val[0..] == val;
    ChannelListScan(val, 0, channels);
  }

  /** A single-channel reply made of the sdi, program, preset and channel
    * list decodes field by field. */
  lemma ChannelReply(sdi: uint8, program: OxtelAudioProgram, preset: OxtelJungerPreset, channels: seq<uint8>)
    requires sdi < 16
    ensures var val := Hex(sdi, 1) + Hex(program, 2) + Hex(preset, 2) + HexBytes(channels);
      && HexSlice(val, 0, 1, 8) == Ok(sdi as nat) && HexSlice(val, 1, 3, 8) == Ok(program as nat)
      && HexSlice(val, 3, 5, 8) == Ok(preset as nat) && HeaderOk(val) && AllPairsHex(val, 5)
      && forall c: nat :: Listed(val, 5, c) <==> c in channels
  {
    var a, b, c, list := Hex(sdi, 1), Hex(program, 2), Hex(preset, 2), HexBytes(channels);
    var val := a + b + c + list;
    PowValues();
    Pow2Eight();
    HexLength(sdi, 1);
    HexLength(program, 2);
    HexLength(preset, 2);
    assert val[0..1] == a;
    assert val[1..3] == b;
    assert val[3..5] == c;
    assert val[5..] == list;
    HexField(val, 0, 1, sdi);
    HexField(val, 1, 2, program);
    HexField(val, 3, 2, preset);
    ChannelListScan(val, 5, channels);
  }

  // ---------------------------------------------------------------------
  // Processing and profiles

  /** `jALP` or `jALR` and the sdi in two hex digits; an sdi above 2 is
    * refused. */
  function SdiCommand(prefix: string, sdi: uint8): (r: Result<string>)
    ensures r.Err? <==> sdi > 2
    ensures r.Err? ==> r.error == InvalidSdiError
    ensures r.Ok? ==> r.value == SdiCommandAsString(prefix, sdi) && |r.value| == |prefix| + 2 && HexAt(r.value, |prefix|, 2, sdi)
  {
    if sdi > 2 then Err(InvalidSdiError) else Ok(SdiCommandAsString(prefix, sdi))
  }

  function SdiCommandAsString(prefix: string, sdi: uint8): (r: string)
    ensures |r| == |prefix| + 2 && r[..|prefix|] == prefix && HexAt(r, |prefix|, 2, sdi)
  {
    var fs := [Lit(prefix), HexOf(sdi, 2)];
    PowValues();
    Shape(fs);
    Render(fs)
  }

  /** `DisableAudioLoudness_AsString`: `jALP` and the sdi. */
  function DisableAudioLoudnessAsString(sdi: uint8): (r: string)
    ensures |r| == 6 && r[..4] == "jALP" && HexAt(r, 4, 2, sdi)
  {
    SdiCommandAsString("jALP", sdi)
  }

  /** `DisableAudioLoudness`: an sdi above 2 is refused. */
  function DisableAudioLoudness(sdi: uint8): (r: Result<string>)
    ensures r.Err? <==> sdi > 2
    ensures r.Err? ==> r.error == InvalidSdiError
    ensures r.Ok? ==> r.value == DisableAudioLoudnessAsString(sdi)
  {
    SdiCommand("jALP", sdi)
  }

  /** `EnableAudioLoudness_AsString`: `jALR` and the sdi. */
  function EnableAudioLoudnessAsString(sdi: uint8): (r: string)
    ensures |r| == 6 && r[..4] == "jALR" && HexAt(r, 4, 2, sdi)
  {
    SdiCommandAsString("jALR", sdi)
  }

  /** `EnableAudioLoudness`: an sdi above 2 is refused. */
  function EnableAudioLoudness(sdi: uint8): (r: Result<string>)
    ensures r.Err? <==> sdi > 2
    ensures r.Err? ==> r.error == InvalidSdiError
    ensures r.Ok? ==> r.value == EnableAudioLoudnessAsString(sdi)
  {
    SdiCommand("jALR", sdi)
  }

  /** `ChangeAudioLoudnessProfile_AsString`: `jALA`, sdi and profile. */
  function ChangeAudioLoudnessProfileAsString(sdi: uint8, profile: uint8): (r: string)
    ensures |r| == 8 && r[..4] == "jALA" && HexAt(r, 4, 2, sdi) && HexAt(r, 6, 2, profile)
  {
    var fs := [Lit("jALA"), HexOf(sdi, 2), HexOf(profile, 2)];
    PowValues();
    Shape(fs);
    Render(fs)
  }

  /** `ChangeAudioLoudnessProfile`: the sdi is checked (above 2) before the
    * profile (above 16). */
  function ChangeAudioLoudnessProfile(sdi: uint8, profile: uint8): (r: Result<string>)
    ensures sdi > 2 ==> r == Err(InvalidSdiError)
    ensures sdi <= 2 && profile > 16 ==> r == Err(InvalidAudioProfileError)
    ensures r.Ok? <==> sdi <= 2 && profile <= 16
    ensures r.Ok? ==> r.value == ChangeAudioLoudnessProfileAsString(sdi, profile)
  {
    if sdi > 2 then Err(InvalidSdiError)
    else if profile > 16 then Err(InvalidAudioProfileError)
    else Ok(ChangeAudioLoudnessProfileAsString(sdi, profile))
  }

  /** `GetAudioLoudnessProfile_AsString`: `jALA` and the sdi. */
  function GetAudioLoudnessProfileAsString(sdi: uint8): (r: string)
    ensures |r| == 6 && r[..4] == "jALA" && HexAt(r, 4, 2, sdi)
  {
    SdiCommandAsString("jALA", sdi)
  }

  /** `GetAudioLoudnessProfile`: an sdi above 2 is refused before anything
    * is sent; the reply body is the profile in hex. */
  function GetAudioLoudnessProfile(sdi: uint8, val: string): (r: Result<uint8>)
    ensures sdi > 2 ==> r == Err(InvalidSdiError)
    ensures sdi <= 2 ==> (r.Ok? <==> ParseUint(val, 16, 8).Ok?)
    ensures r.Ok? ==> r.value == ParseUint(val, 16, 8).value
  {
    if sdi > 2 then Err(InvalidSdiError) else ParseU8(val, 16)
  }

  /** The profile written by `ChangeAudioLoudnessProfile` is what a reply
    * carrying the same two digits reads back. */
  lemma LoudnessProfileRoundTrip(sdi: uint8, profile: uint8)
    requires sdi <= 2 && profile <= 16
    ensures GetAudioLoudnessProfile(sdi, ChangeAudioLoudnessProfile(sdi, profile).value[6..]) == Ok(profile)
  {
    var r := ChangeAudioLoudnessProfileAsString(sdi, profile);
    HexAtShift(r, 6, 0, 2, profile);
    assert r[6..][0..2] == r[6..];
    Pow2Eight();
    ParseNarrow(r[6..], 16, 8);
  }

  /** `GetLoudnessLicenseStatus`: the second character of the body is a
    * boolean. */
  function GetLoudnessLicenseStatus(val: string): (r: Result<bool>)
    ensures |val| < 2 ==> r == Err(IndexOutOfRange)
    ensures |val| >= 2 ==> r == ParseBool([val[1]])
  {
    BoolAt(val, 1)
  }
}
