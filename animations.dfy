/// `animations.go`: starting, stopping and restarting a layer's template
/// animation (`S0`, `S1`, `S4`), jumping to a frame (`S2`) and the play-state
/// tally switch (`YS`).
module Animations {
  import opened GoInts
  import opened Errors
  import opened GoFmt
  import opened GoStrconv
  import opened OxtelTypes
  import opened Utils
  import opened Fields

  const EnquirePlayStateTallyCommand := "YS"

  /** `StartAnimation_AsString`: `S0` and the layer in hex. */
  function StartAnimationAsString(layer: OxtelLayer): (r: string)
    ensures |r| >= 3 && r[..2] == "S0" && ParseUint(r[2..], 16, 8) == Ok(layer as nat)
  {
    LayerCommand("S0", layer)
  }

  /** `RestartAnimation_AsString`: `S4` and the layer in hex. */
  function RestartAnimationAsString(layer: OxtelLayer): (r: string)
    ensures |r| >= 3 && r[..2] == "S4" && ParseUint(r[2..], 16, 8) == Ok(layer as nat)
  {
    LayerCommand("S4", layer)
  }

  /** `StopAnimation_AsString`: `S1`, the layer in hex, then `1` to stop at
    * once or `0` to let the animation finish. */
  function StopAnimationAsString(layer: OxtelLayer, immediate: bool): (r: string)
    ensures |r| >= 4 && r[..2] == "S1" && ParseUint(r[2..|r| - 1], 16, 8) == Ok(layer as nat)
    ensures ParseBool(r[|r| - 1..]) == Ok(immediate)
    ensures layer < 16 ==> |r| == 4 && HexAt(r, 2, 1, layer)
  {
    var head := LayerCommand("S1", layer);
    var r := head + BoolDigit(immediate);
    assert r[..2] == head[..2] && r[2..|r| - 1] == head[2..] && r[|r| - 1..] == BoolDigit(immediate);
    assert head[2..] == Hex(layer, 0);
    ShortLayerAt(head, 2, layer);
    assert r[2..3] == head[2..3];
    r
  }

  /** A layer below 16 is the one hex digit after the command letters. */
  lemma ShortLayerAt(r: string, k: nat, layer: OxtelLayer)
    requires k <= |r| && r[k..] == Hex(layer, 0)
    ensures layer < 16 ==> |r| == k + 1 && HexAt(r, k, 1, layer)
  {
    if layer < 16 {
      PowValues();
      NumeralLength(layer, 16, false, 1);
      HexParse(layer, 0, 64);
      assert r[k..k + 1] == r[k..];
    }
  }

  /** `SelectionAnimationFrame_AsString`: `S2`, the layer in hex, then the
    * frame in at least four hex digits. */
  function SelectionAnimationFrameAsString(layer: OxtelLayer, frame: uint32): (r: string)
    ensures var k := |r| - |Hex(frame, 4)|;
      && k >= 3 && r[..2] == "S2" && ParseUint(r[2..k], 16, 8) == Ok(layer as nat)
      && ParseUint(r[k..], 16, 32) == Ok(frame as nat)
    ensures layer < 16 && frame < 0x1_0000 ==> |r| == 7 && HexAt(r, 2, 1, layer) && HexAt(r, 3, 4, frame)
  {
    var head := LayerCommand("S2", layer);
    var r := head + Hex(frame, 4);
    Pow2ThirtyTwo();
    HexParse(frame, 4, 32);
    assert r[..2] == head[..2] && r[2..|head|] == head[2..] && r[|head|..] == Hex(frame, 4);
    if layer < 16 && frame < 0x1_0000 then
      assert head[2..] == Hex(layer, 0);
      ShortLayerAt(head, 2, layer);
      PowValues();
      HexAtConcat(head, frame, 4, "");
      assert head + Hex(frame, 4) + "" == r;
      assert r[2..3] == head[2..3];
      r
    else r
  }

  /** `EnablePlayStateTally_AsString`: `YS1` to enable, `YS0` to disable. */
  function EnablePlayStateTallyAsString(enable: bool): (r: string)
    ensures r == if enable then "YS1" else "YS0"
  {
    "YS" + Hex(BoolToInt(enable) as nat, 0)
  }

  /** `EnquirePlayStateTally`: the body is a Go boolean. */
  function EnquirePlayStateTally(val: string): (r: Result<bool>)
    ensures r.Ok? <==> val in {"1", "t", "T", "TRUE", "true", "True", "0", "f", "F", "FALSE", "false", "False"}
    ensures r.Ok? ==> (r.value <==> val in {"1", "t", "T", "TRUE", "true", "True"})
    ensures r.Err? ==> r.error == NumError
  {
    ParseBool(val)
  }

  /** The enquiry reads back the flag the enable command sent. */
  lemma PlayStateTallyRoundTrip(enable: bool)
    ensures EnquirePlayStateTally(EnablePlayStateTallyAsString(enable)[2..]) == Ok(enable)
  {
    var r := EnablePlayStateTallyAsString(enable);
    assert r[2..] == if enable then "1" else "0";
  }

  /** The stop command's flag is its last character, `1` or `0`; the two
    * forms differ in nothing else. */
  lemma StopAnimationFlag(layer: OxtelLayer)
    ensures var now := StopAnimationAsString(layer, true);
      var later := StopAnimationAsString(layer, false);
      |now| == |later| && now[..|now| - 1] == later[..|later| - 1]
      && now[|now| - 1] == '1' && later[|later| - 1] == '0'
  {
    var head := LayerCommand("S1", layer);
    assert StopAnimationAsString(layer, true) == head + "1";
    assert StopAnimationAsString(layer, false) == head + "0";
  }
}
