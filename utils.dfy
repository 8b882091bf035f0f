/// The shared encoders: booleans as `0`/`1`, the media-tally flag string, the
/// 16-channel audio mask, the session-lock bit set and the loudness-program
/// command.
module Utils {
  import opened GoInts
  import opened Errors
  import opened GoFmt
  import opened GoStrconv
  import opened OxtelTypes

  /** `boolToInt`. */
  function BoolToInt(input: bool): (r: int16)
    ensures 0 <= r <= 1 && (r == 1 <==> input)
  {
    if input then 1 else 0
  }

  /** `intToBool`: only 0 and 1 are booleans. */
  function IntToBool(val: int): (r: Result<bool>)
    ensures r.Ok? <==> val == 0 || val == 1
    ensures r.Ok? ==> (r.value <==> val == 1)
    ensures r.Err? ==> r.error == BaseError
  {
    if val == 0 then Ok(false) else if val == 1 then Ok(true) else Err(BaseError)
  }

  /** `intToBool` undoes `boolToInt`, and `boolToInt` undoes every successful
    * `intToBool`. */
  lemma IntToBoolInverse(b: bool, val: int)
    ensures IntToBool(BoolToInt(b) as int) == Ok(b)
    ensures IntToBool(val) == Ok(b) ==> BoolToInt(b) as int == val
  {
  }

  /** `%x` (or `%01x`) of `boolToInt(b)`: the one-character flag `1` or `0`. */
  function BoolDigit(b: bool): (r: string)
    ensures |r| == 1 && ParseBool(r) == Ok(b)
  {
    Hex(BoolToInt(b) as nat, 0)
  }

  /** The six flags of a `MediaTallies` in the order the device lists them. */
  function MediaTallyFlags(data: MediaTallies): seq<bool>
  {
    [data.unused1, data.unused2, data.unused3, data.unused4, data.unused5, data.images]
  }

  /** One `1`/`0` character per flag, in order. */
  function FlagText(flags: seq<bool>): (r: string)
    ensures |r| == |flags|
    ensures forall i :: 0 <= i < |flags| ==> r[i] == (if flags[i] then '1' else '0')
  {
    if flags == [] then "" else [if flags[0] then '1' else '0'] + FlagText(flags[1..])
  }

  /** `buildMediaTallies`: six characters, position i is `1` exactly when the
    * i-th flag (Unused1 .. Unused5, Images) is set and `0` otherwise. */
  function BuildMediaTallies(data: MediaTallies): (r: string)
    ensures |r| == 6
    ensures forall i :: 0 <= i < 6 ==> r[i] in "01" && (r[i] == '1' <==> MediaTallyFlags(data)[i])
  {
    FlagText(MediaTallyFlags(data))
  }

  // ---------------------------------------------------------------------
  // Channel masks

  /** The unsigned value whose bit k is flag k. */
  function MaskValue(flags: seq<bool>): (v: nat)
    ensures v < Pow2(|flags|)
  {
    if flags == [] then 0 else (if flags[0] then 1 else 0) + 2 * MaskValue(flags[1..])
  }

  lemma {:induction false} MaskValueBits(flags: seq<bool>, k: nat)
    ensures Bit(MaskValue(flags), k) <==> k < |flags| && flags[k]
    decreases flags
  {
    if flags == [] {
      BitClear(0, k);
    } else if k > 0 {
      BitAbove(if flags[0] then 1 else 0, MaskValue(flags[1..]), 1, k - 1);
      MaskValueBits(flags[1..], k - 1);
    }
  }

  function FirstChannels(n: nat): (r: ChannelMask)
    requires n <= 16
    ensures forall k :: 0 <= k < 16 ==> (r[k] <==> k < n)
  {
    seq(16, k => k < n)
  }

  /** `MakeTwoChannelMask`: channels 1 and 2. */
  function MakeTwoChannelMask(): (r: ChannelMask)
    ensures forall k :: 0 <= k < 16 ==> (r[k] <==> k < 2)
  {
    FirstChannels(2)
  }

  /** `MakeFourChannelMask`: channels 1 to 4. */
  function MakeFourChannelMask(): (r: ChannelMask)
    ensures forall k :: 0 <= k < 16 ==> (r[k] <==> k < 4)
  {
    FirstChannels(4)
  }

  /** `MakeEightChannelMask`: channels 1 to 8. */
  function MakeEightChannelMask(): (r: ChannelMask)
    ensures forall k :: 0 <= k < 16 ==> (r[k] <==> k < 8)
  {
    FirstChannels(8)
  }

  /** `MakeSixteenChannelMask`: all sixteen channels. */
  function MakeSixteenChannelMask(): (r: ChannelMask)
    ensures forall k :: 0 <= k < 16 ==> r[k]
  {
    FirstChannels(16)
  }

  /** `buildChannelMask` as written: the bits are or-ed into an `int16`, so
    * channel 16 lands in the sign bit and `%04X` then prints a minus sign. */
  function BuildChannelMaskAsWritten(mask: ChannelMask): (r: string)
    ensures !mask[15] ==> r == BuildChannelMask(mask)
    ensures mask[15] ==> |r| >= 1 && r[0] == '-'
  {
    var v := MaskValue(mask);
    MaskValueHigh(mask);
    Pow2Eight();
    SignedPadded(ToInt16(v), 16, true, 4)
  }

  lemma MaskValueHigh(mask: ChannelMask)
    ensures mask[15] <==> MaskValue(mask) >= 0x8000
  {
    var v := MaskValue(mask);
    MaskValueBits(mask, 15);
    if v < 0x8000 {
      assert Pow2(15) == 0x8000;
      BitClear(v, 15);
    } else {
      assert v == (v - 0x8000) + Pow2(15) * 1;
      assert v - 0x8000 < Pow2(15);
      BitAbove(v - 0x8000, 1, 15, 0);
    }
  }

  /** `buildChannelMask` as evidently intended: the 16-bit mask as four
    * uppercase hex digits, bit k - 1 set exactly when channel k is. */
  function BuildChannelMask(mask: ChannelMask): (r: string)
    ensures |r| == 4 && IsDigits(r, 16) && Value(r, 16) == MaskValue(mask)
    ensures forall k :: 0 <= k < 16 ==> (Bit(Value(r, 16), k) <==> mask[k])
  {
    var v := MaskValue(mask);
    Pow2Eight();
    assert Pow(16, 4) == 0x1_0000;
    PaddedLength(v, 16, true, 4);
    PaddedValue(v, 16, true, 4);
    MaskBitsAll(mask);
    Padded(v, 16, true, 4)
  }

  lemma MaskBitsAll(mask: ChannelMask)
    ensures forall k :: 0 <= k < 16 ==> (Bit(MaskValue(mask), k) <==> mask[k])
  {
    forall k | 0 <= k < 16
      ensures Bit(MaskValue(mask), k) <==> mask[k]
    {
      MaskValueBits(mask, k);
    }
  }

  /** The library's own test of the channel masks: eight channels print
    * `00FF`. */
  lemma EightChannelMaskText()
    ensures BuildChannelMask(MakeEightChannelMask()) == "00FF"
  {
    FirstChannelsText(8, 255, "00FF");
  }

  lemma TwoChannelMaskText()
    ensures BuildChannelMask(MakeTwoChannelMask()) == "0003"
  {
    FirstChannelsText(2, 3, "0003");
  }

  lemma FourChannelMaskText()
    ensures BuildChannelMask(MakeFourChannelMask()) == "000F"
  {
    FirstChannelsText(4, 15, "000F");
  }

  /** The mask of the first `n` channels prints as `text` when `2^n - 1`
    * pads to it. */
  lemma FirstChannelsText(n: nat, v: nat, text: string)
    requires n <= 16 && v == Pow2(n) - 1 && Padded(v, 16, true, 4) == text
    ensures BuildChannelMask(FirstChannels(n)) == text
  {
    FirstChannelsValue(n);
  }

  /** All sixteen channels: `-001` as written, `FFFF` as intended. */
  lemma SixteenChannelMaskText()
    ensures BuildChannelMaskAsWritten(MakeSixteenChannelMask()) == "-001"
    ensures BuildChannelMask(MakeSixteenChannelMask()) == "FFFF"
  {
    Pow2Sixteen();
    FirstChannelsValue(16);
    AllChannelsSigned();
    MaskTextAsWritten(FirstChannels(16), 0xFFFF, "-001");
    AllChannelsPadded();
    FirstChannelsText(16, 0xFFFF, "FFFF");
  }

  /** `0xFFFF` as an `int16` is -1, which `%04X` prints as `-001`. */
  lemma AllChannelsSigned()
    ensures SignedPadded(ToInt16(0xFFFF), 16, true, 4) == "-001"
  {
    assert ToInt16(0xFFFF) == -1;
    assert Numeral(1, 16, true) == "1";
  }

  lemma AllChannelsPadded()
    ensures Padded(0xFFFF, 16, true, 4) == "FFFF"
  {
    assert Numeral(0xFF, 16, true) == "FF";
    assert Numeral(0xFFF, 16, true) == "FFF";
  }

  lemma MaskTextAsWritten(mask: ChannelMask, v: nat, text: string)
    requires MaskValue(mask) == v && SignedPadded(ToInt16(v), 16, true, 4) == text
    ensures BuildChannelMaskAsWritten(mask) == text
  {
  }

  lemma {:induction false} FirstChannelsValue(n: nat)
    requires n <= 16
    ensures MaskValue(FirstChannels(n)) == Pow2(n) - 1
  {
    RunValue(n, 16);
  }

  /** A run of `n` set flags followed by clear ones is the value `2^n - 1`. */
  lemma {:induction false} RunValue(n: nat, len: nat)
    requires n <= len
    ensures MaskValue(seq(len, k => k < n)) == Pow2(n) - 1
  {
    var s := seq(len, k => k < n);
    if len > 0 {
      if n == 0 {
        assert s[1..] == seq(len - 1, k => k < 0);
        RunValue(0, len - 1);
      } else {
        assert s[1..] == seq(len - 1, k => k < n - 1);
        RunValue(n - 1, len - 1);
      }
    }
  }

  // ---------------------------------------------------------------------
  // Session locks

  /** `BuildSessionLocks`: bit 0 for the mixer, bit 8 + k for layer k, every
    * other bit clear. */
  function BuildSessionLocks(mixer: bool, layers: LayerFlags): (r: int32)
    ensures Bit(r, 0) <==> mixer
    ensures forall k :: 0 <= k < 8 ==> (Bit(r, 8 + k) <==> layers[k])
    ensures forall i :: 1 <= i < 8 ==> !Bit(r, i)
    ensures 0 <= r < 0x1_0000
  {
    LocksBits(mixer, layers);
    (if mixer then 1 else 0) + 0x100 * MaskValue(layers)
  }

  lemma LocksBits(mixer: bool, layers: LayerFlags)
    ensures var r := (if mixer then 1 else 0) + 0x100 * MaskValue(layers);
      && (Bit(r, 0) <==> mixer)
      && (forall k :: 0 <= k < 8 ==> (Bit(r, 8 + k) <==> layers[k]))
      && (forall i :: 1 <= i < 8 ==> !Bit(r, i))
      && 0 <= r < 0x1_0000
  {
    var b := if mixer then 1 else 0;
    var m := MaskValue(layers);
    assert Pow2(8) == 0x100;
    var r := b + Pow2(8) * m;
    BitBelow(b, m, 8, 0);
    forall k | 0 <= k < 8
      ensures Bit(r, 8 + k) <==> layers[k]
    {
      BitAbove(b, m, 8, k);
      MaskValueBits(layers, k);
    }
    forall i | 1 <= i < 8
      ensures !Bit(r, i)
    {
      BitBelow(b, m, 8, i);
      BitClear(b / 2, i - 1);
    }
  }

  /** The lock decoding shared by the `Enquire*Locks` calls and the lock
    * tally: the mixer is bit 0, layer k is bit 8 + k. */
  function DecodeLocks(v: int): (r: LocksResponse)
    ensures r.mixer <==> Bit(v, 0)
    ensures forall k :: 0 <= k < 8 ==> (r.layers[k] <==> Bit(v, 8 + k))
  {
    LocksResponse(Bit(v, 0), seq(8, k requires 0 <= k < 8 => Bit(v, 8 + k)))
  }

  /** Decoding the value `BuildSessionLocks` built gives its flags back. */
  lemma DecodeSessionLocks(mixer: bool, layers: LayerFlags)
    ensures DecodeLocks(BuildSessionLocks(mixer, layers)) == LocksResponse(mixer, layers)
  {
    var r := DecodeLocks(BuildSessionLocks(mixer, layers));
    assert r.layers == layers;
  }

  /** Only bits 0 and 8 to 15 reach the decoded locks. */
  lemma DecodeLocksOtherBits(v: int, w: int)
    requires Bit(v, 0) == Bit(w, 0)
    requires forall k :: 8 <= k < 16 ==> Bit(v, k) == Bit(w, k)
    ensures DecodeLocks(v) == DecodeLocks(w)
  {
    forall k | 0 <= k < 8
      ensures DecodeLocks(v).layers[k] == DecodeLocks(w).layers[k]
    {
      assert Bit(v, 8 + k) == Bit(w, 8 + k);
    }
  }

  // ---------------------------------------------------------------------
  // Loudness programs

  /** The values of the channels that are present, in order. */
  function PresentChannels(channels: seq<Option<uint8>>): seq<uint8>
  {
    if channels == [] then []
    else if channels[0].Some? then [channels[0].value] + PresentChannels(channels[1..])
    else PresentChannels(channels[1..])
  }

  predicate ChannelOutOfRange(channels: seq<Option<uint8>>)
  {
    exists i :: 0 <= i < |channels| && channels[i].Some? && channels[i].value > 15
  }

  lemma ChannelOutOfRangeCons(channels: seq<Option<uint8>>)
    requires channels != []
    ensures ChannelOutOfRange(channels) <==>
            (channels[0].Some? && channels[0].value > 15) || ChannelOutOfRange(channels[1..])
  {
    if ChannelOutOfRange(channels[1..]) {
      var i :| 0 <= i < |channels[1..]| && channels[1..][i].Some? && channels[1..][i].value > 15;
      assert channels[i + 1] == channels[1..][i];
    }
    if ChannelOutOfRange(channels) {
      var i :| 0 <= i < |channels| && channels[i].Some? && channels[i].value > 15;
      if i > 0 {
        assert channels[1..][i - 1] == channels[i];
      }
    }
  }

  /** The part of `buildAudioProgramCommand` that appends the optional
    * channels, as evidently intended: two hex digits per present channel. */
  function OptionalChannelsCommand(channels: seq<Option<uint8>>): (r: Result<string>)
    ensures r.Err? <==> ChannelOutOfRange(channels)
    ensures r.Err? ==> r.error == InvalidAudioProfileError
    ensures r.Ok? ==> |r.value| == 2 * |PresentChannels(channels)|
    ensures r.Ok? ==> forall j :: 0 <= j < |PresentChannels(channels)| ==>
                        HexAt(r.value, 2 * j, 2, PresentChannels(channels)[j])
  {
    if channels == [] then Ok("")
    else
      var rest := OptionalChannelsCommand(channels[1..]);
      ChannelOutOfRangeCons(channels);
      if channels[0].None? then rest
      else if channels[0].value > 15 then Err(InvalidAudioProfileError)
      else if rest.Err? then rest
      else
        var c := channels[0].value;
        HexAtConcat("", c, 2, rest.value);
        assert "" + Hex(c, 2) + rest.value == Hex(c, 2) + rest.value;
        HexAtAfter(Hex(c, 2), rest.value, PresentChannels(channels[1..]));
        Ok(Hex(c, 2) + rest.value)
  }

  /** `buildAudioProgramCommand` as evidently intended: `jAL`, then sdi,
    * program, preset and channel 1 as two hex digits each, then two hex
    * digits per present optional channel; any channel above 15 is an
    * `InvalidAudioProfileError`. */
  function BuildAudioProgramCommand(program: AudioProgram): (r: Result<string>)
    ensures r.Err? <==> program.channel1 > 15 || ChannelOutOfRange(program.channels)
    ensures r.Err? ==> r.error == InvalidAudioProfileError
    ensures r.Ok? ==> |r.value| == 11 + 2 * |PresentChannels(program.channels)| && r.value[..3] == "jAL"
    ensures r.Ok? ==> HexAt(r.value, 3, 2, program.sdi) && HexAt(r.value, 5, 2, program.audioProgram)
                      && HexAt(r.value, 7, 2, program.jungerPreset) && HexAt(r.value, 9, 2, program.channel1)
    ensures r.Ok? ==> forall j :: 0 <= j < |PresentChannels(program.channels)| ==>
                        HexAt(r.value, 11 + 2 * j, 2, PresentChannels(program.channels)[j])
  {
    if program.channel1 > 15 then Err(InvalidAudioProfileError)
    else
      var tail :- OptionalChannelsCommand(program.channels);
      var head := "jAL" + Hex(program.sdi, 2) + Hex(program.audioProgram, 2)
                  + Hex(program.jungerPreset, 2) + Hex(program.channel1, 2);
      ProgramHead(program, tail);
      Ok(head + tail)
  }

  lemma ProgramHead(program: AudioProgram, tail: string)
    requires forall j :: 0 <= j < |PresentChannels(program.channels)| ==>
               HexAt(tail, 2 * j, 2, PresentChannels(program.channels)[j])
    ensures var r := "jAL" + Hex(program.sdi, 2) + Hex(program.audioProgram, 2)
                     + Hex(program.jungerPreset, 2) + Hex(program.channel1, 2) + tail;
      && |r| == 11 + |tail| && r[..3] == "jAL"
      && HexAt(r, 3, 2, program.sdi) && HexAt(r, 5, 2, program.audioProgram)
      && HexAt(r, 7, 2, program.jungerPreset) && HexAt(r, 9, 2, program.channel1)
      && forall j :: 0 <= j < |PresentChannels(program.channels)| ==>
           HexAt(r, 11 + 2 * j, 2, PresentChannels(program.channels)[j])
  {
    var head := "jAL" + Hex(program.sdi, 2) + Hex(program.audioProgram, 2)
                + Hex(program.jungerPreset, 2) + Hex(program.channel1, 2);
    ProgramHeadFields(program);
    HexAtExtend(head, tail, 3, 2, program.sdi);
    HexAtExtend(head, tail, 5, 2, program.audioProgram);
    HexAtExtend(head, tail, 7, 2, program.jungerPreset);
    HexAtExtend(head, tail, 9, 2, program.channel1);
    assert (head + tail)[..3] == head[..3];
    HexAtAfter(head, tail, PresentChannels(program.channels));
  }

  lemma ProgramHeadFields(program: AudioProgram)
    ensures var head := "jAL" + Hex(program.sdi, 2) + Hex(program.audioProgram, 2)
                        + Hex(program.jungerPreset, 2) + Hex(program.channel1, 2);
      && |head| == 11 && head[..3] == "jAL"
      && HexAt(head, 3, 2, program.sdi) && HexAt(head, 5, 2, program.audioProgram)
      && HexAt(head, 7, 2, program.jungerPreset) && HexAt(head, 9, 2, program.channel1)
  {
    PowValues();
    var h1 := "jAL" + Hex(program.sdi, 2);
    HexAtAppend("jAL", program.sdi, 2);
    var h2 := h1 + Hex(program.audioProgram, 2);
    HexAtAppend(h1, program.audioProgram, 2);
    HexAtExtend(h1, Hex(program.audioProgram, 2), 3, 2, program.sdi);
    var h3 := h2 + Hex(program.jungerPreset, 2);
    HexAtAppend(h2, program.jungerPreset, 2);
    HexAtExtend(h2, Hex(program.jungerPreset, 2), 3, 2, program.sdi);
    HexAtExtend(h2, Hex(program.jungerPreset, 2), 5, 2, program.audioProgram);
    HexAtAppend(h3, program.channel1, 2);
    HexAtExtend(h3, Hex(program.channel1, 2), 3, 2, program.sdi);
    HexAtExtend(h3, Hex(program.channel1, 2), 5, 2, program.audioProgram);
    HexAtExtend(h3, Hex(program.channel1, 2), 7, 2, program.jungerPreset);
    assert (h3 + Hex(program.channel1, 2))[..3] == "jAL";
  }

  lemma HexAtAfter(head: string, tail: string, values: seq<uint8>)
    requires forall j :: 0 <= j < |values| ==> HexAt(tail, 2 * j, 2, values[j])
    ensures forall j :: 0 <= j < |values| ==> HexAt(head + tail, |head| + 2 * j, 2, values[j])
  {
    forall j | 0 <= j < |values|
      ensures HexAt(head + tail, |head| + 2 * j, 2, values[j])
    {
      assert HexAt(tail, 2 * j, 2, values[j]);
      assert (head + tail)[|head| + 2 * j..|head| + 2 * j + 2] == tail[2 * j..2 * j + 2];
    }
  }

  /** The optional-channel part of `buildAudioProgramCommand` as written:
    * channel 2 is printed by value, but channels 3 to 8 pass the pointer
    * itself to `%02x`, which prints its address. `addresses[i]` is the
    * address of the pointer in `channels[i]`. */
  function OptionalChannelsCommandAsWritten(channels: seq<Option<uint8>>, addresses: seq<nat>, first: bool): (r: Result<string>)
    requires |addresses| == |channels|
    ensures r.Err? <==> ChannelOutOfRange(channels)
    ensures r.Ok? ==> |r.value| >= 2 * |PresentChannels(channels)|
  {
    if channels == [] then Ok("")
    else
      var rest := OptionalChannelsCommandAsWritten(channels[1..], addresses[1..], false);
      ChannelOutOfRangeCons(channels);
      if channels[0].None? then rest
      else if channels[0].value > 15 then Err(InvalidAudioProfileError)
      else if rest.Err? then rest
      else Ok(Hex(if first then channels[0].value else addresses[0], 2) + rest.value)
  }

  /** `buildAudioProgramCommand` exactly as written (oxtel/utils.go). */
  function BuildAudioProgramCommandAsWritten(program: AudioProgram, addresses: seq<nat>): (r: Result<string>)
    requires |addresses| == 7
    ensures r.Err? <==> BuildAudioProgramCommand(program).Err?
  {
    if program.channel1 > 15 then Err(InvalidAudioProfileError)
    else
      var tail :- OptionalChannelsCommandAsWritten(program.channels, addresses, true);
      Ok("jAL" + Hex(program.sdi, 2) + Hex(program.audioProgram, 2)
         + Hex(program.jungerPreset, 2) + Hex(program.channel1, 2) + tail)
  }

  /** The two differ as soon as one of channels 3 to 8 is present: a Go heap
    * address is never below 0x100, so its `%02x` is longer than two digits. */
  lemma AudioProgramPointerFinding(program: AudioProgram, addresses: seq<nat>, i: nat)
    requires |addresses| == 7
    requires BuildAudioProgramCommand(program).Ok?
    requires 1 <= i < 7 && program.channels[i].Some? && addresses[i] >= 0x100
    ensures BuildAudioProgramCommandAsWritten(program, addresses).Ok?
    ensures BuildAudioProgramCommandAsWritten(program, addresses) != BuildAudioProgramCommand(program)
  {
    var tail := OptionalChannelsCommand(program.channels).value;
    var tailW := OptionalChannelsCommandAsWritten(program.channels, addresses, true).value;
    LongerAsWritten(program.channels, addresses, true, i);
    assert |tailW| > |tail|;
  }

  lemma {:induction false} LongerAsWritten(channels: seq<Option<uint8>>, addresses: seq<nat>, first: bool, i: nat)
    requires |addresses| == |channels| && !ChannelOutOfRange(channels)
    requires i < |channels| && channels[i].Some? && addresses[i] >= 0x100 && (first ==> i >= 1)
    ensures OptionalChannelsCommandAsWritten(channels, addresses, first).Ok?
    ensures |OptionalChannelsCommandAsWritten(channels, addresses, first).value|
            > |OptionalChannelsCommand(channels).value|
    decreases |channels|
  {
    var r := OptionalChannelsCommandAsWritten(channels, addresses, first);
    ChannelOutOfRangeCons(channels);
    if i == 0 {
      assert !first;
      NumeralLength(addresses[0], 16, false, 2);
      assert Pow(16, 2) == 0x100;
      var rest := OptionalChannelsCommandAsWritten(channels[1..], addresses[1..], false);
    } else {
      assert channels[1..][i - 1] == channels[i];
      LongerAsWritten(channels[1..], addresses[1..], false, i - 1);
      if channels[0].Some? {
        HexLength(channels[0].value, 2);
        assert Pow(16, 2) == 0x100;
        var rest := OptionalChannelsCommandAsWritten(channels[1..], addresses[1..], false);
        assert |Hex(if first then channels[0].value else addresses[0], 2)| >= 2;
      }
    }
  }
}
