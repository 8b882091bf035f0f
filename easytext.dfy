/// `easytext.go`: the text-field commands of the EasyText templates
/// (`Z0`, `hZ0`, `Z4`, `Zf`, `Zg`), their field-number guard and the render
/// command.
module EasyText {
  import opened GoInts
  import opened Errors
  import opened GoFmt
  import opened GoStrconv
  import opened OxtelTypes
  import opened Utils
  import opened Fields

  /** The largest field number the text-field commands accept; 255 is the
    * "all fields" number that only `RenderBox` takes. */
  const MaxField: uint8 := 254
  const AllFields: uint8 := 255

  /** A field number the text-field commands refuse. */
  predicate FieldOutOfRange(field: uint8)
  {
    field > MaxField
  }

  /** The guard every text-field command runs before sending `cmd`. */
  function CheckField(field: uint8, cmd: string): (r: Result<string>)
    ensures r.Err? <==> field == 255
    ensures r.Err? ==> r.error == InvalidFieldError
    ensures r.Ok? ==> r.value == cmd
  {
    if FieldOutOfRange(field) then Err(InvalidFieldError) else Ok(cmd)
  }

  // ---------------------------------------------------------------------
  // Update text field (`Z0`, `hZ0`)

  /** `UpdateTextField_AsString`: `Z0`, layer, two-digit field, flags in hex,
    * then the text. */
  function UpdateTextFieldAsString(layer: OxtelLayer, field: uint8, flags: OxtelUpdateTextFieldFlag, text: string): (r: string)
    ensures |r| >= 4 + |Hex(layer, 0)| && r[..2] == "Z0" && HexAt(r, 2 + |Hex(layer, 0)|, 2, field)
    ensures layer < 16 ==> HexAt(r, 2, 1, layer) && HexAt(r, 3, 2, field)
    ensures flags < 16 ==> HexAt(r, 4 + |Hex(layer, 0)|, 1, flags) && r[5 + |Hex(layer, 0)|..] == text
  {
    var r := TextFieldCommand("Z0", layer, field, flags, text);
    assert |"Z0"| == 2 && r[..|"Z0"|] == "Z0";
    r
  }

  /** `UpdatePreloadedTextField_AsString`: the same layout under `hZ0`. */
  function UpdatePreloadedTextFieldAsString(layer: OxtelLayer, field: uint8, flags: OxtelUpdateTextFieldFlag, text: string): (r: string)
    ensures |r| >= 5 + |Hex(layer, 0)| && r[..3] == "hZ0" && HexAt(r, 3 + |Hex(layer, 0)|, 2, field)
    ensures layer < 16 ==> HexAt(r, 3, 1, layer) && HexAt(r, 4, 2, field)
    ensures flags < 16 ==> HexAt(r, 5 + |Hex(layer, 0)|, 1, flags) && r[6 + |Hex(layer, 0)|..] == text
  {
    var r := TextFieldCommand("hZ0", layer, field, flags, text);
    assert |"hZ0"| == 3 && r[..|"hZ0"|] == "hZ0";
    r
  }

  function TextFieldCommand(prefix: string, layer: OxtelLayer, field: uint8, flags: OxtelUpdateTextFieldFlag, text: string): (r: string)
    ensures |r| >= |prefix| + |Hex(layer, 0)| + 2 && r[..|prefix|] == prefix && HexAt(r, |prefix| + |Hex(layer, 0)|, 2, field)
    ensures layer < 16 ==> HexAt(r, |prefix|, 1, layer) && HexAt(r, |prefix| + 1, 2, field)
    ensures flags < 16 ==> HexAt(r, |prefix| + |Hex(layer, 0)| + 2, 1, flags) && r[|prefix| + |Hex(layer, 0)| + 3..] == text
  {
    TextFieldCommandFields(prefix, layer, field, flags, text);
    FieldCommand(prefix, layer, field, Hex(flags, 0) + text)
  }

  lemma TextFieldCommandFields(prefix: string, layer: OxtelLayer, field: uint8, flags: OxtelUpdateTextFieldFlag, text: string)
    ensures var r := FieldCommand(prefix, layer, field, Hex(flags, 0) + text);
      && |r| >= |prefix| + |Hex(layer, 0)| + 2 && r[..|prefix|] == prefix && HexAt(r, |prefix| + |Hex(layer, 0)|, 2, field)
      && (layer < 16 ==> HexAt(r, |prefix|, 1, layer) && HexAt(r, |prefix| + 1, 2, field))
      && (flags < 16 ==> HexAt(r, |prefix| + |Hex(layer, 0)| + 2, 1, flags) && r[|prefix| + |Hex(layer, 0)| + 3..] == text)
  {
    var tail := Hex(flags, 0) + text;
    var r := FieldCommand(prefix, layer, field, tail);
    FieldCommandFields(prefix, layer, field, tail);
    FlagsField(r, |prefix| + |Hex(layer, 0)| + 2, flags, text);
  }

  /** Flags below 16 are one hex digit, and the text follows. */
  lemma FlagsField(r: string, k: nat, flags: OxtelUpdateTextFieldFlag, text: string)
    requires k <= |r| && r[k..] == Hex(flags, 0) + text
    ensures flags < 16 ==> HexAt(r, k, 1, flags) && r[k + 1..] == text
  {
    if flags < 16 {
      PowValues();
      HexAtConcat("", flags, 1, text);
      assert Hex(flags, 0) == Hex(flags, 1);
      assert r[k..k + 1] == r[k..][0..1];
      assert r[k + 1..] == r[k..][1..];
    }
  }

  /** The preloaded-template command is the on-air one with `h` in front. */
  lemma PreloadedTextFieldPrefix(layer: OxtelLayer, field: uint8, flags: OxtelUpdateTextFieldFlag, text: string)
    ensures UpdatePreloadedTextFieldAsString(layer, field, flags, text) == "h" + UpdateTextFieldAsString(layer, field, flags, text)
  {
    var tail := Hex(flags, 0) + text;
    assert FieldCommand("hZ0", layer, field, tail) == "h" + FieldCommand("Z0", layer, field, tail);
  }

  /** `UpdateTextField`: refuses field 255, otherwise sends the command. */
  function UpdateTextField(layer: OxtelLayer, field: uint8, flags: OxtelUpdateTextFieldFlag, text: string): (r: Result<string>)
    ensures r.Err? <==> field > MaxField
    ensures r.Err? ==> r.error == InvalidFieldError
    ensures r.Ok? ==> r.value == UpdateTextFieldAsString(layer, field, flags, text)
  {
    CheckField(field, UpdateTextFieldAsString(layer, field, flags, text))
  }

  /** `UpdatePreloadedTextField`: the same guard, then the `hZ0` command. */
  function UpdatePreloadedTextField(layer: OxtelLayer, field: uint8, flags: OxtelUpdateTextFieldFlag, text: string): (r: Result<string>)
    ensures r.Err? <==> field > MaxField
    ensures r.Err? ==> r.error == InvalidFieldError
    ensures r.Ok? ==> r.value == UpdatePreloadedTextFieldAsString(layer, field, flags, text)
  {
    CheckField(field, UpdatePreloadedTextFieldAsString(layer, field, flags, text))
  }

  // ---------------------------------------------------------------------
  // Render box

  /** `RenderBox_AsString`: `Z0`, layer and two-digit field, nothing more. */
  function RenderBoxAsString(layer: OxtelLayer, field: uint8): (r: string)
    ensures |r| == 4 + |Hex(layer, 0)| && r[..2] == "Z0" && HexAt(r, 2 + |Hex(layer, 0)|, 2, field)
    ensures layer < 16 ==> |r| == 5 && HexAt(r, 2, 1, layer) && HexAt(r, 3, 2, field)
  {
    FieldCommandFields("Z0", layer, field, "");
    FieldCommand("Z0", layer, field, "")
  }

  /** A text update starts with the render command for the same field:
    * the device reads both as `Z0`, layer, field. */
  lemma UpdateTextFieldExtendsRenderBox(layer: OxtelLayer, field: uint8, flags: OxtelUpdateTextFieldFlag, text: string)
    ensures var box := RenderBoxAsString(layer, field);
      var update := UpdateTextFieldAsString(layer, field, flags, text);
      |box| < |update| && update[..|box|] == box
  {
    var tail := Hex(flags, 0) + text;
    var box := FieldCommand("Z0", layer, field, "");
    var update := FieldCommand("Z0", layer, field, tail);
    assert box == "Z0" + Hex(layer, 0) + Hex(field, 2);
    assert update == box + tail;
  }

  /** `RenderBox` has no field guard: the "all fields" number 255 goes out
    * as `ff`, where every text-field command refuses it. */
  lemma RenderBoxAllFields(layer: OxtelLayer, flags: OxtelUpdateTextFieldFlag, text: string)
    ensures var r := RenderBoxAsString(layer, AllFields);
      r[|r| - 2..] == "ff"
    ensures UpdateTextField(layer, AllFields, flags, text) == Err(InvalidFieldError)
    ensures ChangeImage(layer, AllFields, text) == Err(InvalidFieldError)
  {
    var r := RenderBoxAsString(layer, AllFields);
    assert Numeral(15, 16, false) == "f";
    assert Hex(255, 2) == "ff";
    assert r == "Z0" + Hex(layer, 0) + "ff";
  }

  // ---------------------------------------------------------------------
  // Change image (`Z4`)

  /** `ChangeImage_AsString`: `Z4`, layer, two-digit field and the file name. */
  function ChangeImageAsString(layer: OxtelLayer, field: uint8, fileName: string): (r: string)
    ensures |r| >= 4 + |Hex(layer, 0)| && r[..2] == "Z4" && HexAt(r, 2 + |Hex(layer, 0)|, 2, field) && r[4 + |Hex(layer, 0)|..] == fileName
    ensures layer < 16 ==> HexAt(r, 2, 1, layer) && HexAt(r, 3, 2, field) && r[5..] == fileName
  {
    FieldCommandFields("Z4", layer, field, fileName);
    FieldCommand("Z4", layer, field, fileName)
  }

  /** `ChangeImage`: refuses field 255, otherwise sends the command. */
  function ChangeImage(layer: OxtelLayer, field: uint8, fileName: string): (r: Result<string>)
    ensures r.Err? <==> field > MaxField
    ensures r.Err? ==> r.error == InvalidFieldError
    ensures r.Ok? ==> r.value == ChangeImageAsString(layer, field, fileName)
  {
    CheckField(field, ChangeImageAsString(layer, field, fileName))
  }

  // ---------------------------------------------------------------------
  // Text-field animation (`Zf`, `Zg`)

  /** `prefix`, layer, two-digit field and the flag `1` or `0`. */
  function FieldFlagCommand(prefix: string, layer: OxtelLayer, field: uint8, flag: bool): (r: string)
    ensures |r| == |prefix| + |Hex(layer, 0)| + 3 && r[..|prefix|] == prefix
    ensures HexAt(r, |prefix| + |Hex(layer, 0)|, 2, field)
    ensures r[|r| - 1] == (if flag then '1' else '0')
    ensures ParseBool(r[|r| - 1..]) == Ok(flag)
    ensures layer < 16 ==> |r| == |prefix| + 4 && HexAt(r, |prefix|, 1, layer) && HexAt(r, |prefix| + 1, 2, field)
  {
    var r := FieldCommand(prefix, layer, field, BoolDigit(flag));
    FieldCommandFields(prefix, layer, field, BoolDigit(flag));
    assert r[|r| - 1..] == BoolDigit(flag);
    r
  }

  /** `StopTextFieldAnimation_AsString`: `Zf`, layer, field, and `1` to stop
    * at once or `0` to let the animation finish. */
  function StopTextFieldAnimationAsString(layer: OxtelLayer, field: uint8, immediate: bool): (r: string)
    ensures |r| >= 5 && r[..2] == "Zf" && HexAt(r, 2 + |Hex(layer, 0)|, 2, field)
    ensures r[|r| - 1] == (if immediate then '1' else '0')
    ensures layer < 16 ==> |r| == 6 && HexAt(r, 2, 1, layer) && HexAt(r, 3, 2, field)
  {
    FieldFlagCommand("Zf", layer, field, immediate)
  }

  /** `StopTextFieldAnimation`: refuses field 255, otherwise sends the command. */
  function StopTextFieldAnimation(layer: OxtelLayer, field: uint8, immediate: bool): (r: Result<string>)
    ensures r.Err? <==> field > MaxField
    ensures r.Err? ==> r.error == InvalidFieldError
    ensures r.Ok? ==> r.value == StopTextFieldAnimationAsString(layer, field, immediate)
  {
    CheckField(field, StopTextFieldAnimationAsString(layer, field, immediate))
  }

  /** `PauseRestartStrap_AsString`: `Zg`, layer, field, and `1` to restart or
    * `0` to pause. */
  function PauseRestartStrapAsString(layer: OxtelLayer, field: uint8, restart: bool): (r: string)
    ensures |r| >= 5 && r[..2] == "Zg" && HexAt(r, 2 + |Hex(layer, 0)|, 2, field)
    ensures r[|r| - 1] == (if restart then '1' else '0')
    ensures layer < 16 ==> |r| == 6 && HexAt(r, 2, 1, layer) && HexAt(r, 3, 2, field)
  {
    FieldFlagCommand("Zg", layer, field, restart)
  }

  /** `PauseRestartStrap`: refuses field 255, otherwise sends the command. */
  function PauseRestartStrap(layer: OxtelLayer, field: uint8, restart: bool): (r: Result<string>)
    ensures r.Err? <==> field > MaxField
    ensures r.Err? ==> r.error == InvalidFieldError
    ensures r.Ok? ==> r.value == PauseRestartStrapAsString(layer, field, restart)
  {
    CheckField(field, PauseRestartStrapAsString(layer, field, restart))
  }

  /** The pause and restart commands differ only in their last character,
    * and the same holds for stopping at once or at the end. */
  lemma FlagOnlyInLastCharacter(layer: OxtelLayer, field: uint8)
    ensures var on := PauseRestartStrapAsString(layer, field, true);
      var off := PauseRestartStrapAsString(layer, field, false);
      |on| == |off| && on[..|on| - 1] == off[..|off| - 1] && on[|on| - 1] != off[|off| - 1]
    ensures var on := StopTextFieldAnimationAsString(layer, field, true);
      var off := StopTextFieldAnimationAsString(layer, field, false);
      |on| == |off| && on[..|on| - 1] == off[..|off| - 1] && on[|on| - 1] != off[|off| - 1]
  {
    var head := "Zg" + Hex(layer, 0) + Hex(field, 2);
    assert PauseRestartStrapAsString(layer, field, true) == head + "1";
    assert PauseRestartStrapAsString(layer, field, false) == head + "0";
    var stop := "Zf" + Hex(layer, 0) + Hex(field, 2);
    assert StopTextFieldAnimationAsString(layer, field, true) == stop + "1";
    assert StopTextFieldAnimationAsString(layer, field, false) == stop + "0";
  }
}
