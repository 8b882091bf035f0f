/// The client's value types: the one-byte enumerations, the response records
/// the `Enquire*` calls return, and the unsolicited tallies the receive loop
/// publishes. Go's optional `*T` fields are `Option<T>`; Go's runs of
/// numbered boolean fields (`Channel1` .. `Channel16`, `Layer0` .. `Layer7`)
/// are fixed-length sequences, element k standing for field k + 1 (channels)
/// or field k (layers).
module OxtelTypes {
  import opened GoInts

  type OxtelLayer = uint8
  type OxtelDirection = uint8
  type OxtelMediaTallies = uint8
  type OxtelPlayStateTally = uint8
  type OxtelUpdateTextFieldFlag = uint8
  type OxtelTransitionType = uint8
  type OxtelMixerInput = uint8
  type OxtelVideoSource = uint8
  type OxtelARC = uint8
  type OxtelAudioSource = uint8
  type OxtelAudioProgram = uint8
  type OxtelJungerPreset = uint8
  type OxtelAudioMixMode = uint8
  type OxtelAudioOutput = uint8
  type OxtelLatencySource = uint8
  type OxtelVideoStandard = uint8
  type OxtelFieldRate = uint8
  type OxtelColorSpace = uint8
  type OxtelKantarOutput = uint8
  type OxtelExternalIOType = uint8
  type OxtelExternalIODirection = uint8
  type OxtelExternalIOId = uint8

  const OXTEL_EXT_IO_TYPE_SDI: OxtelExternalIOType := 0x0
  const OXTEL_EXT_IO_TYPE_2022_6: OxtelExternalIOType := 0x1
  const OXTEL_EXT_IO_TYPE_2110: OxtelExternalIOType := 0x3
  const OXTEL_EXT_IO_TYPE_2022_6_2022_7: OxtelExternalIOType := 0x4

  /** `Channel1` .. `Channel16` of a `ChannelMask`. */
  type ChannelMask = s: seq<bool> | |s| == 16 witness seq(16, _ => false)

  /** `Layer0` .. `Layer7` of a `LocksResponse`. */
  type LayerFlags = s: seq<bool> | |s| == 8 witness seq(8, _ => false)

  /** `Channel1` .. `Channel8` of an `AudioLoudnessResponse`. */
  type LoudnessChannels = s: seq<bool> | |s| == 8 witness seq(8, _ => false)

  /** `Channel2` .. `Channel8` of an `AudioProgram`, each optional. */
  type OptionalChannels = s: seq<Option<uint8>> | |s| == 7 witness seq(7, _ => None)

  datatype LocksResponse = LocksResponse(mixer: bool, layers: LayerFlags)

  datatype MediaTallies = MediaTallies(unused1: bool, unused2: bool, unused3: bool, unused4: bool, unused5: bool, images: bool)

  datatype AudioProgram = AudioProgram(
    sdi: uint8,
    audioProgram: OxtelAudioProgram,
    jungerPreset: OxtelJungerPreset,
    channel1: uint8,
    channels: OptionalChannels)

  datatype FileInfoResponse = FileInfoResponse(fileExists: bool, filename: string)
  datatype FileQueryResponse = FileQueryResponse(endOfDir: bool, filename: string)
  datatype ExtendedFileInfoResponse = ExtendedFileInfoResponse(
    fileExists: bool,
    xPosition: int64, yPosition: int64, width: int64, height: int64, clip: int64, gain: int64,
    transparency: int64, imageType: int64, frames: int64, animationMode: int64, loadTime: int64,
    associatedAudio: int64,
    filename: string)
  datatype ValidateTemplateResponse = ValidateTemplateResponse(filename: string, fileExists: bool, missingAssets: int16)
  datatype LayerTemplateResponse = LayerTemplateResponse(layer: OxtelLayer, filename: string)
  datatype ImagePositionResponse = ImagePositionResponse(layer: OxtelLayer, xOffset: int64, yOffset: int64)
  datatype MixerInputResponse = MixerInputResponse(input: OxtelMixerInput, source: OxtelVideoSource)
  datatype MixModeResponse = MixModeResponse(
    transitionType: uint8, abMixRate: uint16, wipeSoftness: uint8, abMixAngle: uint16, vFadeColor: uint8)
  datatype ColorGeneratorResponse = ColorGeneratorResponse(unit: uint8, red: uint8, green: uint8, blue: uint8)
  datatype AudioProfileResponse = AudioProfileResponse(source: OxtelAudioSource, profile: uint8)
  datatype AudioLoudnessResponse = AudioLoudnessResponse(
    channels: LoudnessChannels,
    sdi: Option<uint8>,
    audioProgram: Option<OxtelAudioProgram>,
    jungerPreset: Option<OxtelJungerPreset>)
  datatype AudioABFollowVideoABResponse = AudioABFollowVideoABResponse(unused1: uint8, enabled: bool)
  datatype AudioGainResponse = AudioGainResponse(source: OxtelAudioSource, channelMask: string, gain: int8)
  datatype LatencyResponse = LatencyResponse(source: OxtelLatencySource, latency: int8)
  datatype SystemStatusResponse = SystemStatusResponse(
    systemMode: uint8, versionHigh: uint16, versionLow: uint16, videoStandard: OxtelVideoStandard,
    previewSource: uint16, fadeRateDSK1: uint16, fadeRateDSK2: uint16, ftbRateDSK1: uint16,
    ftbRateDSK2: uint16, systemNotAccessed: uint8)
  datatype VideoLayerStatusResponse = VideoLayerStatusResponse(
    layerFaderAngle: uint16, layerFTBAngle: uint16, unused1: uint16, unused2: uint16, unused3: uint16)
  datatype CommandAvailabilityResponse = CommandAvailabilityResponse(commandByte1: char, commandByte2: char, supported: bool)
  datatype SlaveLayerStatusResponse = SlaveLayerStatusResponse(layerStates: LayerFlags, unused: int32)
  datatype FullVersionNumberResponse = FullVersionNumberResponse(
    major: int64, minor: int64, patch: int64, branch: int64, buildNumber: string, asString: string)
  datatype CurrentTimeResponse = CurrentTimeResponse(
    fieldRate: OxtelFieldRate, hours: uint8, minutes: uint8, seconds: uint8, frames: uint8)
  datatype NumberOfExternalIOConfigurationsResponse = NumberOfExternalIOConfigurationsResponse(
    ioType: OxtelExternalIOType, ioDirection: OxtelExternalIODirection, numConfigurations: uint8)

  /** The optional network part of an external IO configuration. */
  datatype NetworkSettings = NetworkSettings(
    localInterface: Option<string>,
    ipAddress: Option<string>,
    port: Option<uint32>,
    ipAddress2: Option<string>,
    port2: Option<uint32>,
    sdpFileName: Option<string>)

  datatype ExternalIOConfigurationResponse = ExternalIOConfigurationResponse(
    ioType: OxtelExternalIOType, ioDirection: OxtelExternalIODirection, index: uint8,
    configurationId: uint8, name: string, network: NetworkSettings)
  datatype ExternalIOSourceResponse = ExternalIOSourceResponse(
    ioDirection: OxtelExternalIODirection, ioId: OxtelExternalIOId, ioType: OxtelExternalIOType,
    configurationId: uint8, state: uint8)
  datatype ExternalIODynamicConfigurationResponse = ExternalIODynamicConfigurationResponse(
    ioType: OxtelExternalIOType, ioId: OxtelExternalIOId, ioDirection: OxtelExternalIODirection,
    network: NetworkSettings)
  datatype ExternalInput = ExternalInput(name: string, videoSourceId: uint8)
  datatype ExternalInputsResponse = ExternalInputsResponse(numberOfInputs: uint8, externalInputs: seq<ExternalInput>)
  datatype ExternalOutput = ExternalOutput(name: string, id: OxtelExternalIOId)
  datatype ExternalOutputsResponse = ExternalOutputsResponse(numberOfOutputs: uint8, externalOutputs: seq<ExternalOutput>)

  /** What the receive loop publishes on the `Unsolicited` channel. Every
    * shape carries the frame text in `raw`. */
  datatype Unsolicited =
    | UnsolicitedMessage(raw: string)
    | KeyerPositionTally(raw: string, layer: OxtelLayer, direction: OxtelDirection)
    | ImageLoadTally(raw: string, layer: OxtelLayer, template: string)
    | ImagePreloadTally(raw: string, layer: OxtelLayer, template: string)
    | MediaTally(raw: string, mediaType: MediaTallies, action: OxtelMediaTallies, filename: string)
    | PlayStateTally(raw: string, layer: OxtelLayer, state: OxtelPlayStateTally)
    | VideoTally(
        raw: string, mixerInput: uint8, layer0: OxtelDirection, layer1: OxtelDirection,
        mixerASource: OxtelVideoSource, mixerBSource: OxtelVideoSource, unused1: uint8, unused2: uint8)
    | AudioProfileTally(raw: string, source: OxtelAudioSource, profile: uint8)
    | LockTally(raw: string, sessionLocks: LocksResponse, permanentLocks: LocksResponse)
    | ExternalIOSourceChangedTally(
        raw: string, ioDirection: OxtelExternalIODirection, ioId: OxtelExternalIOId,
        ioType: OxtelExternalIOType, configurationId: uint8, state: uint8)
    | ExternalIODynamicConfigChangedTally(
        raw: string, ioDirection: OxtelExternalIODirection, ioId: OxtelExternalIOId,
        ioType: OxtelExternalIOType, network: NetworkSettings)
}
