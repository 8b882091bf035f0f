/// `external_io.go`: the external (IP) input and output commands: sources,
/// configurations, dynamic configurations and the lists of inputs and
/// outputs. Replies carry fixed-width hex bytes, then comma-separated network
/// fields, or semicolon-separated name and id pairs.
module ExternalIO {
  import opened GoInts
  import opened Errors
  import opened GoFmt
  import opened GoStrconv
  import opened GoStrings
  import opened OxtelTypes
  import opened Utils
  import opened Fields
  import opened Transport

  const EnquireExternalIOTallyCommand := "hXIOT"
  const EnquireExternalIOSupportedCommand := "hEXTIO"
  const EnquireExternalInputsCommand := "hXIN"
  const EnquireOutputsCommand := "hOUT"

  // ---------------------------------------------------------------------
  // Number of configurations

  /** `EnquireNumberOfExternalIOConfigurations_AsString`: `hXNC`, type and
    * direction. */
  function EnquireNumberOfExternalIOConfigurationsAsString(ioType: OxtelExternalIOType, direction: OxtelExternalIODirection): (r: string)
    ensures |r| == 8 && r[..4] == "hXNC"
    ensures HexSlice(r[4..], 0, 2, 8) == Ok(ioType as nat) && HexSlice(r[4..], 2, 4, 8) == Ok(direction as nat)
  {
    var values := [ioType, direction];
    var r := BytesCommand("hXNC", values);
    assert |"hXNC"| == 4 && values[0] == ioType && values[1] == direction;
    r
  }

  /** `EnquireNumberOfExternalIOConfigurations`: hex bytes at `[0:2]` and
    * `[2:4]`, then the rest of the body as one hex byte. */
  function EnquireNumberOfExternalIOConfigurations(val: string): (r: Result<NumberOfExternalIOConfigurationsResponse>)
    ensures r.Ok? <==> HexSlice(val, 0, 2, 8).Ok? && HexSlice(val, 2, 4, 8).Ok? && ParseUint(val[4..], 16, 8).Ok?
    ensures r.Ok? ==> && HexAt(val, 0, 2, r.value.ioType) && HexAt(val, 2, 2, r.value.ioDirection)
                      && ParseUint(val[4..], 16, 8) == Ok(r.value.numConfigurations as nat)
  {
    Pow2Eight();
    var outType :- HexSlice(val, 0, 2, 8);
    var dir :- HexSlice(val, 2, 4, 8);
    var num :- ParseU8(val[4..], 16);
    Ok(NumberOfExternalIOConfigurationsResponse(outType, dir, num))
  }

  /** A reply of three `%02x` bytes decodes to those bytes. */
  lemma NumberOfConfigurationsRoundTrip(ioType: OxtelExternalIOType, direction: OxtelExternalIODirection, num: uint8)
    ensures EnquireNumberOfExternalIOConfigurations(HexBytes([ioType, direction, num]))
            == Ok(NumberOfExternalIOConfigurationsResponse(ioType, direction, num))
  {
    var values := [ioType, direction, num];
    HexByteOf(values, 0);
    HexByteOf(values, 1);
    HexByteOf(values, 2);
    NumberOfConfigurationsDecodes(HexBytes(values), ioType, direction, num);
  }

  /** A six-character reply holding three hex bytes decodes to them. */
  lemma NumberOfConfigurationsDecodes(val: string, ioType: uint8, direction: uint8, num: uint8)
    requires |val| == 6
    requires HexSlice(val, 0, 2, 8) == Ok(ioType as nat) && HexSlice(val, 2, 4, 8) == Ok(direction as nat)
    requires HexSlice(val, 4, 6, 8) == Ok(num as nat)
    ensures EnquireNumberOfExternalIOConfigurations(val) == Ok(NumberOfExternalIOConfigurationsResponse(ioType, direction, num))
  {
    assert val[4..] == val[4..6];
    Pow2Eight();
  }

  // ---------------------------------------------------------------------
  // Network settings

  /** The network settings an IO type carries: an interface unless SDI, an
    * address and port for 2022-6 (alone or with 2022-7), a second address
    * and port for 2022-6/2022-7, an SDP file for 2110. */
  predicate Shaped(ioType: OxtelExternalIOType, n: NetworkSettings)
  {
    && (n.localInterface.Some? <==> ioType != OXTEL_EXT_IO_TYPE_SDI)
    && (n.ipAddress.Some? <==> ioType == OXTEL_EXT_IO_TYPE_2022_6 || ioType == OXTEL_EXT_IO_TYPE_2022_6_2022_7)
    && (n.port.Some? <==> n.ipAddress.Some?)
    && (n.ipAddress2.Some? <==> ioType == OXTEL_EXT_IO_TYPE_2022_6_2022_7)
    && (n.port2.Some? <==> n.ipAddress2.Some?)
    && (n.sdpFileName.Some? <==> ioType == OXTEL_EXT_IO_TYPE_2110)
  }

  /** No text field holds a comma. */
  predicate CommaFree(n: NetworkSettings)
  {
    && (n.localInterface.Some? ==> ',' !in n.localInterface.value)
    && (n.ipAddress.Some? ==> ',' !in n.ipAddress.value)
    && (n.ipAddress2.Some? ==> ',' !in n.ipAddress2.value)
    && (n.sdpFileName.Some? ==> ',' !in n.sdpFileName.value)
  }

  function Present(s: Option<string>): seq<string>
  {
    if s.Some? then [s.value] else []
  }

  function PresentPort(p: Option<uint32>): seq<string>
  {
    if p.Some? then [Dec(p.value, 0)] else []
  }

  /** The comma-separated fields that follow the first one in a reply:
    * interface, address, port, second address, second port, SDP file, each
    * only when present, ports in decimal. */
  function NetworkFields(n: NetworkSettings): seq<string>
  {
    Present(n.localInterface) + Present(n.ipAddress) + PresentPort(n.port)
    + Present(n.ipAddress2) + PresentPort(n.port2) + Present(n.sdpFileName)
  }

  /** What a decoder accepts is shaped by the IO type it read. */
  lemma TallyNetworkShaped(ioType: OxtelExternalIOType, parts: seq<string>)
    requires TallyNetwork(ioType, parts).Ok?
    ensures Shaped(ioType, TallyNetwork(ioType, parts).value)
  {
  }

  /** The network fields of a reply read back as the settings they were
    * written from. */
  lemma NetworkRoundTrip(ioType: OxtelExternalIOType, n: NetworkSettings, first: string)
    requires Shaped(ioType, n)
    ensures TallyNetwork(ioType, [first] + NetworkFields(n)) == Ok(n)
  {
    if ioType == OXTEL_EXT_IO_TYPE_SDI {
      assert [first] + NetworkFields(n) == [first];
    } else if ioType == OXTEL_EXT_IO_TYPE_2022_6 {
      Network2022Six(n, first);
    } else if ioType == OXTEL_EXT_IO_TYPE_2022_6_2022_7 {
      Network2022Seven(n, first);
    } else if ioType == OXTEL_EXT_IO_TYPE_2110 {
      assert [first] + NetworkFields(n) == [first, n.localInterface.value, n.sdpFileName.value];
    } else {
      assert [first] + NetworkFields(n) == [first, n.localInterface.value];
    }
  }

  lemma Network2022Six(n: NetworkSettings, first: string)
    requires Shaped(OXTEL_EXT_IO_TYPE_2022_6, n)
    ensures TallyNetwork(OXTEL_EXT_IO_TYPE_2022_6, [first] + NetworkFields(n)) == Ok(n)
  {
    var port := n.port.value;
    var parts := [first, n.localInterface.value, n.ipAddress.value, Dec(port, 0)];
    assert [first] + NetworkFields(n) == parts;
    PortRoundTrip(parts, 2, n.ipAddress.value, port);
  }

  lemma Network2022Seven(n: NetworkSettings, first: string)
    requires Shaped(OXTEL_EXT_IO_TYPE_2022_6_2022_7, n)
    ensures TallyNetwork(OXTEL_EXT_IO_TYPE_2022_6_2022_7, [first] + NetworkFields(n)) == Ok(n)
  {
    var port, port2 := n.port.value, n.port2.value;
    var parts := [first, n.localInterface.value, n.ipAddress.value, Dec(port, 0), n.ipAddress2.value, Dec(port2, 0)];
    assert [first] + NetworkFields(n) == parts;
    PortRoundTrip(parts, 2, n.ipAddress.value, port);
    PortRoundTrip(parts, 4, n.ipAddress2.value, port2);
  }

  /** An address followed by a decimal port reads back as both. */
  lemma PortRoundTrip(parts: seq<string>, i: nat, address: string, port: uint32)
    requires i + 1 < |parts| && parts[i] == address && parts[i + 1] == Dec(port, 0)
    ensures AddressAndPort(parts, i) == Ok((Some(address), Some(port)))
  {
    Pow2ThirtyTwo();
    DecParse(port, 0, 32);
  }

  /** No part holds a comma. */
  predicate PartsCommaFree(parts: seq<string>)
  {
    forall i :: 0 <= i < |parts| ==> ',' !in parts[i]
  }

  lemma PartsCommaFreeConcat(a: seq<string>, b: seq<string>)
    requires PartsCommaFree(a) && PartsCommaFree(b)
    ensures PartsCommaFree(a + b)
  {
    forall i | 0 <= i < |a + b| ensures ',' !in (a + b)[i] {
      if i < |a| {
        assert (a + b)[i] == a[i];
      } else {
        assert (a + b)[i] == b[i - |a|];
      }
    }
  }

  /** A decimal port holds no comma. */
  lemma PresentPortCommaFree(p: Option<uint32>)
    ensures PartsCommaFree(PresentPort(p))
  {
    if p.Some? {
      NumeralFree(p.value, 10, 0, ',');
      assert PresentPort(p) == [Padded(p.value, 10, false, 0)];
    }
  }

  lemma NetworkFieldsCommaFree(n: NetworkSettings)
    requires CommaFree(n)
    ensures PartsCommaFree(NetworkFields(n))
  {
    var a, b, c := Present(n.localInterface), Present(n.ipAddress), PresentPort(n.port);
    var d, e, f := Present(n.ipAddress2), PresentPort(n.port2), Present(n.sdpFileName);
    PresentPortCommaFree(n.port);
    PresentPortCommaFree(n.port2);
    assert PartsCommaFree(a) && PartsCommaFree(b) && PartsCommaFree(d) && PartsCommaFree(f);
    PartsCommaFreeConcat(a, b);
    PartsCommaFreeConcat(a + b, c);
    PartsCommaFreeConcat(a + b + c, d);
    PartsCommaFreeConcat(a + b + c + d, e);
    PartsCommaFreeConcat(a + b + c + d + e, f);
  }

  /** A body whose first comma-separated field starts with `HexBytes(values)`
    * splits into that field and the network fields, and each byte reads at
    * its offset. */
  lemma ReplyLayout(values: seq<uint8>, rest: string, n: NetworkSettings)
    requires ',' !in rest && CommaFree(n)
    ensures var val := Join([HexBytes(values) + rest] + NetworkFields(n), ',');
      && Split(val, ',') == [HexBytes(values) + rest] + NetworkFields(n)
      && forall j :: 0 <= j < |values| ==> HexSlice(val, 2 * j, 2 * j + 2, 8) == Ok(values[j] as nat)
  {
    var first := HexBytes(values) + rest;
    var fields := NetworkFields(n);
    ReplyCommaFree(values, rest, n);
    SplitJoin([first] + fields, ',');
    var tail := if fields == [] then [] else [','] + Join(fields, ',');
    JoinCons(first, fields, ',');
    var val := Join([first] + fields, ',');
    assert val == first + tail;
    Associate(HexBytes(values), rest, tail);
    forall j | 0 <= j < |values|
      ensures HexSlice(val, 2 * j, 2 * j + 2, 8) == Ok(values[j] as nat)
    {
      HexByteAt(values, rest + tail, j);
    }
  }

  lemma Associate(a: string, b: string, c: string)
    ensures (a + b) + c == a + (b + c)
  {
  }

  lemma ReplyCommaFree(values: seq<uint8>, rest: string, n: NetworkSettings)
    requires ',' !in rest && CommaFree(n)
    ensures PartsCommaFree([HexBytes(values) + rest] + NetworkFields(n))
  {
    HexBytesFree(values, ',');
    NetworkFieldsCommaFree(n);
    assert PartsCommaFree([HexBytes(values) + rest]);
    PartsCommaFreeConcat([HexBytes(values) + rest], NetworkFields(n));
  }

  // ---------------------------------------------------------------------
  // Configurations

  /** `EnquireExternalIOConfiguration_AsString`: `hXNC`, type, direction
    * and index. */
  function EnquireExternalIOConfigurationAsString(ioType: OxtelExternalIOType, direction: OxtelExternalIODirection, index: uint8): (r: string)
    ensures |r| == 10 && r[..4] == "hXNC"
    ensures HexSlice(r[4..], 0, 2, 8) == Ok(ioType as nat) && HexSlice(r[4..], 2, 4, 8) == Ok(direction as nat)
    ensures HexSlice(r[4..], 4, 6, 8) == Ok(index as nat)
  {
    var values := [ioType, direction, index];
    var r := BytesCommand("hXNC", values);
    assert |"hXNC"| == 4 && values[0] == ioType && values[1] == direction && values[2] == index;
    r
  }

  /** `EnquireExternalIOConfiguration`: type, direction, index and
    * configuration id as hex bytes in `[0:8]`, the name as the rest of the
    * first comma-separated field, then the network fields the type carries. */
  function EnquireExternalIOConfiguration(val: string): (r: Result<ExternalIOConfigurationResponse>)
    ensures r.Ok? ==> && HexAt(val, 0, 2, r.value.ioType) && HexAt(val, 2, 2, r.value.ioDirection)
                      && HexAt(val, 4, 2, r.value.index) && HexAt(val, 6, 2, r.value.configurationId)
    ensures r.Ok? ==> |Split(val, ',')[0]| >= 8 && r.value.name == Split(val, ',')[0][8..]
    ensures r.Ok? ==> Shaped(r.value.ioType, r.value.network)
    ensures r.Ok? ==> TallyNetwork(r.value.ioType, Split(val, ',')) == Ok(r.value.network)
  {
    Pow2Eight();
    var outType :- HexSlice(val, 0, 2, 8);
    var dir :- HexSlice(val, 2, 4, 8);
    var outIndex :- HexSlice(val, 4, 6, 8);
    var configId :- HexSlice(val, 6, 8, 8);
    var parts := Split(val, ',');
    var name :- From(parts[0], 8);
    var network :- TallyNetwork(outType, parts);
    TallyNetworkShaped(outType, parts);
    Ok(ExternalIOConfigurationResponse(outType, dir, outIndex, configId, name, network))
  }

  /** A configuration reply: the four bytes and the name, then the network
    * fields, separated by commas. */
  function ConfigurationReply(c: ExternalIOConfigurationResponse): string
  {
    Join([HexBytes([c.ioType, c.ioDirection, c.index, c.configurationId]) + c.name] + NetworkFields(c.network), ',')
  }

  /** Every configuration whose network settings fit its type, and whose
    * texts hold no comma, decodes from its reply. */
  lemma ConfigurationRoundTrip(c: ExternalIOConfigurationResponse)
    requires Shaped(c.ioType, c.network) && ',' !in c.name && CommaFree(c.network)
    ensures EnquireExternalIOConfiguration(ConfigurationReply(c)) == Ok(c)
  {
    var values := [c.ioType, c.ioDirection, c.index, c.configurationId];
    var first := HexBytes(values) + c.name;
    var val := ConfigurationReply(c);
    ReplyLayout(values, c.name, c.network);
    assert first[8..] == c.name;
    NetworkRoundTrip(c.ioType, c.network, first);
    assert HexSlice(val, 0, 2, 8) == Ok(c.ioType as nat) by { assert values[0] == c.ioType; }
    assert HexSlice(val, 2, 4, 8) == Ok(c.ioDirection as nat) by { assert values[1] == c.ioDirection; }
    assert HexSlice(val, 4, 6, 8) == Ok(c.index as nat) by { assert values[2] == c.index; }
    assert HexSlice(val, 6, 8, 8) == Ok(c.configurationId as nat) by { assert values[3] == c.configurationId; }
  }

  // ---------------------------------------------------------------------
  // Sources

  /** `SetExternalIOSource_AsString`: `hXS` and five bytes: direction, id,
    * type, configuration id and the restart flag as `00` or `01`. */
  function SetExternalIOSourceAsString(direction: OxtelExternalIODirection, ioId: OxtelExternalIOId, ioType: OxtelExternalIOType,
                                       configId: uint8, forceRestart: bool): (r: string)
    ensures |r| == 13 && r[..3] == "hXS"
    ensures var body := r[3..];
      && HexSlice(body, 0, 2, 8) == Ok(direction as nat) && HexSlice(body, 2, 4, 8) == Ok(ioId as nat)
      && HexSlice(body, 4, 6, 8) == Ok(ioType as nat) && HexSlice(body, 6, 8, 8) == Ok(configId as nat)
      && HexSlice(body, 8, 10, 8) == Ok(if forceRestart then 1 else 0)
  {
    var restart: uint8 := if forceRestart then 1 else 0;
    assert restart == BoolToInt(forceRestart) as uint8;
    var values := [direction, ioId, ioType, configId, restart];
    var r := BytesCommand("hXS", values);
    assert |"hXS"| == 3 && values[0] == direction && values[1] == ioId && values[2] == ioType;
    assert values[3] == configId && values[4] == restart;
    r
  }

  /** `EnquireExternalIOSource_AsString`: `hXS`, direction and id. */
  function EnquireExternalIOSourceAsString(direction: OxtelExternalIODirection, ioId: OxtelExternalIOId): (r: string)
    ensures |r| == 7 && r[..3] == "hXS"
    ensures HexSlice(r[3..], 0, 2, 8) == Ok(direction as nat) && HexSlice(r[3..], 2, 4, 8) == Ok(ioId as nat)
  {
    var values := [direction, ioId];
    var r := BytesCommand("hXS", values);
    assert |"hXS"| == 3 && values[0] == direction && values[1] == ioId;
    r
  }

  /** `EnquireExternalIOSource`: five hex bytes. */
  function EnquireExternalIOSource(val: string): (r: Result<ExternalIOSourceResponse>)
    ensures r.Ok? <==> && HexSlice(val, 0, 2, 8).Ok? && HexSlice(val, 2, 4, 8).Ok? && HexSlice(val, 4, 6, 8).Ok?
                       && HexSlice(val, 6, 8, 8).Ok? && HexSlice(val, 8, 10, 8).Ok?
    ensures r.Ok? ==> && HexAt(val, 0, 2, r.value.ioDirection) && HexAt(val, 2, 2, r.value.ioId)
                      && HexAt(val, 4, 2, r.value.ioType) && HexAt(val, 6, 2, r.value.configurationId)
                      && HexAt(val, 8, 2, r.value.state)
  {
    Pow2Eight();
    var outDir :- HexSlice(val, 0, 2, 8);
    var outIOId :- HexSlice(val, 2, 4, 8);
    var outType :- HexSlice(val, 4, 6, 8);
    var configId :- HexSlice(val, 6, 8, 8);
    var state :- HexSlice(val, 8, 10, 8);
    Ok(ExternalIOSourceResponse(outDir, outIOId, outType, configId, state))
  }

  /** A source reply laid out like the set command's body reports the
    * source that command selects, with the restart flag in the state byte. */
  lemma ExternalIOSourceRoundTrip(direction: OxtelExternalIODirection, ioId: OxtelExternalIOId, ioType: OxtelExternalIOType,
                                  configId: uint8, forceRestart: bool)
    ensures EnquireExternalIOSource(SetExternalIOSourceAsString(direction, ioId, ioType, configId, forceRestart)[3..])
            == Ok(ExternalIOSourceResponse(direction, ioId, ioType, configId, if forceRestart then 1 else 0))
  {
  }

  // ---------------------------------------------------------------------
  // Dynamic configurations

  /** The first comma-separated field of an `hXDC` command: direction, id,
    * type and flags, each `%02x`. */
  function DynamicHeader(direction: OxtelExternalIODirection, ioId: OxtelExternalIOId, ioType: OxtelExternalIOType, flags: uint16): string
  {
    HexBytes([direction, ioId, ioType]) + Hex(flags, 2)
  }

  /** The pointer arguments one IO type needs are all given. */
  predicate ParametersGiven(ioType: OxtelExternalIOType, ipAddress: Option<string>, port: Option<string>,
                            ipAddress2: Option<string>, port2: Option<string>, sdpFileName: Option<string>)
  {
    if ioType == OXTEL_EXT_IO_TYPE_2022_6 then ipAddress.Some? && port.Some?
    else if ioType == OXTEL_EXT_IO_TYPE_2022_6_2022_7 then ipAddress.Some? && port.Some? && ipAddress2.Some? && port2.Some?
    else if ioType == OXTEL_EXT_IO_TYPE_2110 then sdpFileName.Some?
    else false
  }

  /** `SetExternalIODynamicConfiguration`: for 2022-6 an address and port,
    * for 2022-6/2022-7 both addresses and ports, for 2110 an SDP file;
    * anything else, or a missing parameter, is an `InvalidParametersError`
    * and nothing is sent. */
  function SetExternalIODynamicConfiguration(direction: OxtelExternalIODirection, ioId: OxtelExternalIOId, ioType: OxtelExternalIOType,
                                             flags: uint16, localInterface: string, ipAddress: Option<string>, port: Option<string>,
                                             ipAddress2: Option<string>, port2: Option<string>, sdpFileName: Option<string>): (r: Result<string>)
    ensures r.Err? <==> !ParametersGiven(ioType, ipAddress, port, ipAddress2, port2, sdpFileName)
    ensures r.Err? ==> r.error == InvalidParametersError
    ensures r.Ok? ==> SetExternalIODynamicConfigurationAsString(direction, ioId, ioType, flags, localInterface,
                                                                ipAddress, port, ipAddress2, port2, sdpFileName) == r
    ensures r.Ok? ==> |r.value| >= 4 && r.value[..4] == "hXDC"
  {
    if !ParametersGiven(ioType, ipAddress, port, ipAddress2, port2, sdpFileName) then Err(InvalidParametersError)
    else SetExternalIODynamicConfigurationAsString(direction, ioId, ioType, flags, localInterface, ipAddress, port, ipAddress2, port2, sdpFileName)
  }

  /** `SetExternalIODynamicConfiguration_AsString`: the same text, with no
    * checks, so a missing parameter of the type is a nil dereference; any
    * other type gives a bare `hXDC`. */
  function SetExternalIODynamicConfigurationAsString(direction: OxtelExternalIODirection, ioId: OxtelExternalIOId, ioType: OxtelExternalIOType,
                                                     flags: uint16, localInterface: string, ipAddress: Option<string>, port: Option<string>,
                                                     ipAddress2: Option<string>, port2: Option<string>, sdpFileName: Option<string>): (r: Result<string>)
    ensures r.Err? ==> r.error == NilDereference
    ensures ParametersGiven(ioType, ipAddress, port, ipAddress2, port2, sdpFileName) <==> r.Ok? && r.value != "hXDC"
    ensures r.Ok? ==> |r.value| >= 4 && r.value[..4] == "hXDC"
  {
    var header := DynamicHeader(direction, ioId, ioType, flags);
    if ioType == OXTEL_EXT_IO_TYPE_2022_6 then
      if ipAddress.None? || port.None? then Err(NilDereference)
      else Ok("hXDC" + Join([header, localInterface, ipAddress.value, port.value], ','))
    else if ioType == OXTEL_EXT_IO_TYPE_2022_6_2022_7 then
      if ipAddress.None? || port.None? || ipAddress2.None? || port2.None? then Err(NilDereference)
      else Ok("hXDC" + Join([header, localInterface, ipAddress.value, port.value, ipAddress2.value, port2.value], ','))
    else if ioType == OXTEL_EXT_IO_TYPE_2110 then
      if sdpFileName.None? then Err(NilDereference)
      else Ok("hXDC" + Join([header, localInterface, sdpFileName.value], ','))
    else Ok("hXDC")
  }

  /** `EnquireExternalIODynamicConfiguration_AsString`: `hXDC`, direction,
    * id and type. */
  function EnquireExternalIODynamicConfigurationAsString(direction: OxtelExternalIODirection, ioId: OxtelExternalIOId,
                                                         ioType: OxtelExternalIOType): (r: string)
    ensures |r| == 10 && r[..4] == "hXDC"
    ensures HexSlice(r[4..], 0, 2, 8) == Ok(direction as nat) && HexSlice(r[4..], 2, 4, 8) == Ok(ioId as nat)
    ensures HexSlice(r[4..], 4, 6, 8) == Ok(ioType as nat)
  {
    var values := [direction, ioId, ioType];
    var r := BytesCommand("hXDC", values);
    assert |"hXDC"| == 4 && values[0] == direction && values[1] == ioId && values[2] == ioType;
    r
  }

  /** `EnquireExternalIODynamicConfiguration`: direction, id and type as hex
    * bytes in `[0:6]`; the interface is always the second comma-separated
    * field, the other network fields are taken as the type carries them. */
  function EnquireExternalIODynamicConfiguration(val: string): (r: Result<ExternalIODynamicConfigurationResponse>)
    ensures r.Ok? ==> && HexAt(val, 0, 2, r.value.ioDirection) && HexAt(val, 2, 2, r.value.ioId)
                      && HexAt(val, 4, 2, r.value.ioType)
    ensures r.Ok? ==> 1 < |Split(val, ',')| && r.value.network.localInterface == Some(Split(val, ',')[1])
    ensures r.Ok? ==> TallyNetwork(r.value.ioType, Split(val, ',')).Ok?
                      && r.value.network == TallyNetwork(r.value.ioType, Split(val, ',')).value.(localInterface := Some(Split(val, ',')[1]))
    ensures (&& HexSlice(val, 0, 2, 8).Ok? && HexSlice(val, 2, 4, 8).Ok? && HexSlice(val, 4, 6, 8).Ok?
             && |Split(val, ',')| < 2) ==> r == Err(IndexOutOfRange)
  {
    Pow2Eight();
    var outDir :- HexSlice(val, 0, 2, 8);
    var outId :- HexSlice(val, 2, 4, 8);
    var outType :- HexSlice(val, 4, 6, 8);
    var parts := Split(val, ',');
    var localInterface :- Part(parts, 1);
    var network :- TallyNetwork(outType, parts);
    Ok(ExternalIODynamicConfigurationResponse(outType, outId, outDir, network.(localInterface := Some(localInterface))))
  }

  /** Go's `*string` port argument carrying a decimal port. */
  function PortText(port: Option<uint32>): Option<string>
  {
    if port.Some? then Some(Dec(port.value, 0)) else None
  }

  /** A dynamic configuration that the set command accepts reads back from
    * a reply laid out like that command's body. */
  lemma DynamicConfigurationRoundTrip(direction: OxtelExternalIODirection, ioId: OxtelExternalIOId, ioType: OxtelExternalIOType,
                                      flags: uint16, n: NetworkSettings)
    requires ioType == OXTEL_EXT_IO_TYPE_2022_6 || ioType == OXTEL_EXT_IO_TYPE_2022_6_2022_7 || ioType == OXTEL_EXT_IO_TYPE_2110
    requires Shaped(ioType, n) && CommaFree(n)
    ensures var cmd := SetExternalIODynamicConfiguration(direction, ioId, ioType, flags, n.localInterface.value,
                                                         n.ipAddress, PortText(n.port), n.ipAddress2, PortText(n.port2), n.sdpFileName);
      && cmd.Ok?
      && EnquireExternalIODynamicConfiguration(cmd.value[4..]) == Ok(ExternalIODynamicConfigurationResponse(ioType, ioId, direction, n))
  {
    var body := Join([DynamicHeader(direction, ioId, ioType, flags)] + NetworkFields(n), ',');
    DynamicCommandText(direction, ioId, ioType, flags, n);
    var cmd := SetExternalIODynamicConfiguration(direction, ioId, ioType, flags, n.localInterface.value,
                                                 n.ipAddress, PortText(n.port), n.ipAddress2, PortText(n.port2), n.sdpFileName);
    assert cmd.value[4..] == body;
    DynamicReplyDecodes(direction, ioId, ioType, flags, n);
  }

  /** The set command's body is the header and then the network fields. */
  lemma DynamicCommandText(direction: OxtelExternalIODirection, ioId: OxtelExternalIOId, ioType: OxtelExternalIOType,
                           flags: uint16, n: NetworkSettings)
    requires ioType == OXTEL_EXT_IO_TYPE_2022_6 || ioType == OXTEL_EXT_IO_TYPE_2022_6_2022_7 || ioType == OXTEL_EXT_IO_TYPE_2110
    requires Shaped(ioType, n)
    ensures var cmd := SetExternalIODynamicConfigurationAsString(direction, ioId, ioType, flags, n.localInterface.value,
                                                                 n.ipAddress, PortText(n.port), n.ipAddress2, PortText(n.port2), n.sdpFileName);
      cmd == Ok("hXDC" + Join([DynamicHeader(direction, ioId, ioType, flags)] + NetworkFields(n), ','))
  {
    var header := DynamicHeader(direction, ioId, ioType, flags);
    var parts := [header] + NetworkFields(n);
    if ioType == OXTEL_EXT_IO_TYPE_2022_6 {
      assert parts == [header, n.localInterface.value, n.ipAddress.value, PortText(n.port).value];
    } else if ioType == OXTEL_EXT_IO_TYPE_2022_6_2022_7 {
      assert parts == [header, n.localInterface.value, n.ipAddress.value, PortText(n.port).value,
                       n.ipAddress2.value, PortText(n.port2).value];
    } else {
      assert parts == [header, n.localInterface.value, n.sdpFileName.value];
    }
  }

  /** The header and network fields, joined by commas, decode to the
    * configuration they describe. */
  lemma DynamicReplyDecodes(direction: OxtelExternalIODirection, ioId: OxtelExternalIOId, ioType: OxtelExternalIOType,
                            flags: uint16, n: NetworkSettings)
    requires ioType == OXTEL_EXT_IO_TYPE_2022_6 || ioType == OXTEL_EXT_IO_TYPE_2022_6_2022_7 || ioType == OXTEL_EXT_IO_TYPE_2110
    requires Shaped(ioType, n) && CommaFree(n)
    ensures EnquireExternalIODynamicConfiguration(Join([DynamicHeader(direction, ioId, ioType, flags)] + NetworkFields(n), ','))
            == Ok(ExternalIODynamicConfigurationResponse(ioType, ioId, direction, n))
  {
    var header := DynamicHeader(direction, ioId, ioType, flags);
    var val := Join([header] + NetworkFields(n), ',');
    DynamicHeaderBytes(direction, ioId, ioType, flags, n);
    DynamicNetworkParts(direction, ioId, ioType, flags, n);
    DynamicDecodeSteps(val, direction, ioId, ioType, n);
  }

  /** The header's three bytes read back from the reply. */
  lemma DynamicHeaderBytes(direction: OxtelExternalIODirection, ioId: OxtelExternalIOId, ioType: OxtelExternalIOType,
                           flags: uint16, n: NetworkSettings)
    requires CommaFree(n)
    ensures var val := Join([DynamicHeader(direction, ioId, ioType, flags)] + NetworkFields(n), ',');
      && HexSlice(val, 0, 2, 8) == Ok(direction as nat) && HexSlice(val, 2, 4, 8) == Ok(ioId as nat)
      && HexSlice(val, 4, 6, 8) == Ok(ioType as nat)
  {
    var values := [direction, ioId, ioType];
    NumeralFree(flags, 16, 2, ',');
    ReplyLayout(values, Hex(flags, 2), n);
    assert values[0] == direction && values[1] == ioId && values[2] == ioType;
  }

  /** The reply's comma-separated parts carry the interface second and the
    * network fields the type reads. */
  lemma DynamicNetworkParts(direction: OxtelExternalIODirection, ioId: OxtelExternalIOId, ioType: OxtelExternalIOType,
                            flags: uint16, n: NetworkSettings)
    requires ioType == OXTEL_EXT_IO_TYPE_2022_6 || ioType == OXTEL_EXT_IO_TYPE_2022_6_2022_7 || ioType == OXTEL_EXT_IO_TYPE_2110
    requires Shaped(ioType, n) && CommaFree(n)
    ensures var parts := Split(Join([DynamicHeader(direction, ioId, ioType, flags)] + NetworkFields(n), ','), ',');
      && 1 < |parts| && n.localInterface == Some(parts[1]) && TallyNetwork(ioType, parts) == Ok(n)
  {
    var header := DynamicHeader(direction, ioId, ioType, flags);
    NumeralFree(flags, 16, 2, ',');
    ReplyLayout([direction, ioId, ioType], Hex(flags, 2), n);
    NetworkRoundTrip(ioType, n, header);
    assert NetworkFields(n)[0] == n.localInterface.value;
  }

  /** The decoder's steps, once each of its reads is known. */
  lemma DynamicDecodeSteps(val: string, direction: OxtelExternalIODirection, ioId: OxtelExternalIOId, ioType: OxtelExternalIOType,
                           n: NetworkSettings)
    requires HexSlice(val, 0, 2, 8) == Ok(direction as nat) && HexSlice(val, 2, 4, 8) == Ok(ioId as nat)
    requires HexSlice(val, 4, 6, 8) == Ok(ioType as nat)
    requires 1 < |Split(val, ',')| && n.localInterface == Some(Split(val, ',')[1])
    requires TallyNetwork(ioType, Split(val, ',')) == Ok(n)
    ensures EnquireExternalIODynamicConfiguration(val) == Ok(ExternalIODynamicConfigurationResponse(ioType, ioId, direction, n))
  {
  }

  // ---------------------------------------------------------------------
  // Tally and support flags

  /** `EnableExternalIOTally_AsString`: `hXIOT1` to enable, `hXIOT0` to
    * disable. */
  function EnableExternalIOTallyAsString(enable: bool): (r: string)
    ensures r == if enable then "hXIOT1" else "hXIOT0"
  {
    "hXIOT" + Hex(BoolToInt(enable) as nat, 1)
  }

  /** `EnquireExternalIOTally`: the body is a Go boolean. */
  function EnquireExternalIOTally(val: string): (r: Result<bool>)
    ensures r.Ok? <==> val in {"1", "t", "T", "TRUE", "true", "True", "0", "f", "F", "FALSE", "false", "False"}
    ensures r.Ok? ==> (r.value <==> val in {"1", "t", "T", "TRUE", "true", "True"})
    ensures r.Err? ==> r.error == NumError
  {
    ParseBool(val)
  }

  /** `EnquireExternalIOSupported`: the body is a Go boolean. */
  function EnquireExternalIOSupported(val: string): (r: Result<bool>)
    ensures r.Ok? <==> val in {"1", "t", "T", "TRUE", "true", "True", "0", "f", "F", "FALSE", "false", "False"}
    ensures r.Ok? ==> (r.value <==> val in {"1", "t", "T", "TRUE", "true", "True"})
    ensures r.Err? ==> r.error == NumError
  {
    ParseBool(val)
  }

  /** The enquiry reads back the flag the enable command sent. */
  lemma ExternalIOTallyRoundTrip(enable: bool)
    ensures EnquireExternalIOTally(EnableExternalIOTallyAsString(enable)[5..]) == Ok(enable)
  {
    var r := EnableExternalIOTallyAsString(enable);
    assert r[5..] == if enable then "1" else "0";
  }

  // ---------------------------------------------------------------------
  // Inputs and outputs

  /** Step `k` of the `for i := 1; i < len(parts); i += 2` loop reads the id
    * in `parts[i+1]`, `i = 2k + 1`, which is a panic past the end. */
  function IdAt(parts: seq<string>, k: nat): Result<nat>
  {
    if 2 * k + 2 < |parts| then ParseUint(parts[2 * k + 2], 10, 8) else Err(IndexOutOfRange)
  }

  /** Every step of the loop, the `k` with `2k + 1 < len(parts)`, reads its
    * id. */
  ghost predicate AllIds(parts: seq<string>)
  {
    forall k :: 0 <= k && 2 * k + 1 < |parts| ==> IdAt(parts, k).Ok?
  }

  /** The loop shared by `EnquireExternalInputs` and `EnquireOutputs`: after
    * the count, the parts come as name and decimal id, in order; the first
    * id that does not read, or a name without an id, is the error. */
  method NamedIds(parts: seq<string>) returns (r: Result<seq<(string, uint8)>>)
    requires |parts| >= 1
    ensures r.Ok? <==> AllIds(parts)
    ensures r.Ok? ==> |r.value| == |parts| / 2
    ensures r.Ok? ==> forall k :: 0 <= k < |r.value| ==>
              2 * k + 2 < |parts| && r.value[k] == (parts[2 * k + 1], IdAt(parts, k).value as uint8)
    ensures r.Err? ==> exists k :: 0 <= k && 2 * k + 1 < |parts| && IdAt(parts, k) == Err(r.error)
                                   && forall j :: 0 <= j < k ==> IdAt(parts, j).Ok?
  {
    var ids: seq<(string, uint8)> := [];
    var i := 1;
    while i < |parts|
      invariant i == 2 * |ids| + 1 && i <= |parts|
      invariant forall k :: 0 <= k < |ids| ==>
                  IdAt(parts, k).Ok? && 2 * k + 2 < |parts| && ids[k] == (parts[2 * k + 1], IdAt(parts, k).value as uint8)
      decreases |parts| - i
    {
      var k := |ids|;
      if i + 1 >= |parts| {
        assert IdAt(parts, k) == Err(IndexOutOfRange);
        return Err(IndexOutOfRange);
      }
      var id := ParseUint(parts[i + 1], 10, 8);
      assert IdAt(parts, k) == id;
      if id.Err? {
        return Err(id.error);
      }
      IdFits(parts, k);
      var entry := (parts[i], id.value as uint8);
      var next := ids + [entry];
      forall j | 0 <= j < |next|
        ensures IdAt(parts, j).Ok? && 2 * j + 2 < |parts| && next[j] == (parts[2 * j + 1], IdAt(parts, j).value as uint8)
      {
        if j < k {
          assert next[j] == ids[j];
        } else {
          assert j == k && i == 2 * j + 1 && next[j] == entry;
        }
      }
      ids := next;
      i := i + 2;
    }
    Half(|parts|, |ids|);
    return Ok(ids);
  }

  /** Where the loop stands against the `|parts| / 2` steps it takes. */
  lemma Half(len: nat, k: nat)
    requires 2 * k + 1 <= len
    ensures len == 2 * k + 1 ==> len / 2 == k
    ensures len == 2 * k + 2 ==> len / 2 == k + 1
    ensures len > 2 * k + 2 ==> len / 2 >= k + 1
  {
  }

  lemma IdFits(parts: seq<string>, k: nat)
    requires IdAt(parts, k).Ok?
    ensures IdAt(parts, k).value < 256
  {
    Pow2Eight();
  }

  /** `EnquireExternalInputs`: the `;`-separated reply starts with the hex
    * count; then each input's name and video source id. */
  method EnquireExternalInputs(val: string) returns (r: Result<ExternalInputsResponse>)
    ensures var parts := Split(val, ';');
      r.Ok? <==> ParseUint(parts[0], 16, 8).Ok? && AllIds(parts)
    ensures var parts := Split(val, ';');
      r.Ok? ==> && r.value.numberOfInputs as nat == ParseUint(parts[0], 16, 8).value
                && |r.value.externalInputs| == |parts| / 2
                && forall k :: 0 <= k < |r.value.externalInputs| ==>
                     2 * k + 2 < |parts| && r.value.externalInputs[k] == ExternalInput(parts[2 * k + 1], IdAt(parts, k).value as uint8)
  {
    var parts := Split(val, ';');
    var num := ParseU8(parts[0], 16);
    if num.Err? {
      return Err(num.error);
    }
    var ids := NamedIds(parts);
    if ids.Err? {
      return Err(ids.error);
    }
    var inputs := seq(|ids.value|, k requires 0 <= k < |ids.value| => ExternalInput(ids.value[k].0, ids.value[k].1));
    return Ok(ExternalInputsResponse(num.value, inputs));
  }

  /** `EnquireOutputs`: the same layout, each output's name and id. */
  method EnquireOutputs(val: string) returns (r: Result<ExternalOutputsResponse>)
    ensures var parts := Split(val, ';');
      r.Ok? <==> ParseUint(parts[0], 16, 8).Ok? && AllIds(parts)
    ensures var parts := Split(val, ';');
      r.Ok? ==> && r.value.numberOfOutputs as nat == ParseUint(parts[0], 16, 8).value
                && |r.value.externalOutputs| == |parts| / 2
                && forall k :: 0 <= k < |r.value.externalOutputs| ==>
                     2 * k + 2 < |parts| && r.value.externalOutputs[k] == ExternalOutput(parts[2 * k + 1], IdAt(parts, k).value as uint8)
  {
    var parts := Split(val, ';');
    var num := ParseU8(parts[0], 16);
    if num.Err? {
      return Err(num.error);
    }
    var ids := NamedIds(parts);
    if ids.Err? {
      return Err(ids.error);
    }
    var outputs := seq(|ids.value|, k requires 0 <= k < |ids.value| => ExternalOutput(ids.value[k].0, ids.value[k].1));
    return Ok(ExternalOutputsResponse(num.value, outputs));
  }

  /** Each entry as a name and its decimal id. */
  function EntryParts(entries: seq<(string, uint8)>): (r: seq<string>)
    ensures |r| == 2 * |entries|
  {
    if entries == [] then [] else [entries[0].0, Dec(entries[0].1, 0)] + EntryParts(entries[1..])
  }

  lemma {:induction false} EntryPartsAt(entries: seq<(string, uint8)>)
    ensures forall k :: 0 <= k < |entries| ==>
              EntryParts(entries)[2 * k] == entries[k].0 && EntryParts(entries)[2 * k + 1] == Dec(entries[k].1, 0)
  {
    if entries != [] {
      EntryPartsAt(entries[1..]);
      forall k | 1 <= k < |entries|
        ensures EntryParts(entries)[2 * k] == entries[k].0 && EntryParts(entries)[2 * k + 1] == Dec(entries[k].1, 0)
      {
        assert entries[1..][k - 1] == entries[k];
        assert EntryParts(entries)[2 * k] == EntryParts(entries[1..])[2 * (k - 1)];
        assert EntryParts(entries)[2 * k + 1] == EntryParts(entries[1..])[2 * (k - 1) + 1];
      }
    }
  }

  /** An inputs or outputs reply: the hex count, then each name and id, all
    * separated by semicolons. */
  function NamedIdsReply(count: uint8, entries: seq<(string, uint8)>): string
  {
    Join(ReplyParts(count, entries), ';')
  }

  function ReplyParts(count: uint8, entries: seq<(string, uint8)>): seq<string>
  {
    [Hex(count, 0)] + EntryParts(entries)
  }

  /** The pieces of a reply whose names hold no semicolon hold none. */
  lemma EntryPartsFree(count: uint8, entries: seq<(string, uint8)>)
    requires forall k :: 0 <= k < |entries| ==> ';' !in entries[k].0
    ensures forall i :: 0 <= i < |ReplyParts(count, entries)| ==> ';' !in ReplyParts(count, entries)[i]
  {
    var rest := EntryParts(entries);
    var parts := [Hex(count, 0)] + rest;
    EntryPartsAt(entries);
    NumeralFree(count, 16, 0, ';');
    forall i | 0 <= i < |parts| ensures ';' !in parts[i] {
      if i > 0 {
        var k := (i - 1) / 2;
        EntryIndex(i, k);
        if i == 2 * k + 1 {
          assert parts[i] == rest[2 * k];
        } else {
          assert parts[i] == rest[2 * k + 1];
          NumeralFree(entries[k].1, 10, 0, ';');
        }
      }
    }
  }

  lemma EntryIndex(i: nat, k: nat)
    requires i > 0 && k == (i - 1) / 2
    ensures i == 2 * k + 1 || i == 2 * k + 2
  {
  }

  /** Step `k` of the loop reads entry `k`. */
  lemma EntryIdAt(count: uint8, entries: seq<(string, uint8)>, k: nat)
    requires k < |entries|
    ensures var parts := ReplyParts(count, entries);
      2 * k + 2 < |parts| && parts[2 * k + 1] == entries[k].0 && IdAt(parts, k) == Ok(entries[k].1 as nat)
  {
    var rest := EntryParts(entries);
    var parts := [Hex(count, 0)] + rest;
    EntryPartsAt(entries);
    assert parts[2 * k + 1] == rest[2 * k];
    assert parts[2 * k + 2] == rest[2 * k + 1];
    Pow2Eight();
    DecParse(entries[k].1, 0, 8);
  }

  /** Every reply whose names hold no semicolon splits back into its count
    * and entries: each step of the loop reads the name and id written. */
  lemma NamedIdsRoundTrip(count: uint8, entries: seq<(string, uint8)>)
    requires forall k :: 0 <= k < |entries| ==> ';' !in entries[k].0
    ensures var parts := Split(NamedIdsReply(count, entries), ';');
      && ParseUint(parts[0], 16, 8) == Ok(count as nat)
      && AllIds(parts) && |parts| / 2 == |entries|
      && forall k :: 0 <= k < |entries| ==> 2 * k + 2 < |parts| && parts[2 * k + 1] == entries[k].0 && IdAt(parts, k) == Ok(entries[k].1 as nat)
  {
    var parts := ReplyParts(count, entries);
    EntryPartsFree(count, entries);
    SplitJoin(parts, ';');
    Pow2Eight();
    HexParse(count, 0, 8);
    Half(|parts|, |entries|);
    forall k | 0 <= k < |entries|
      ensures 2 * k + 2 < |parts| && parts[2 * k + 1] == entries[k].0 && IdAt(parts, k) == Ok(entries[k].1 as nat)
    {
      EntryIdAt(count, entries, k);
    }
  }
}
