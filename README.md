# go-oxtel in Dafny

A model of go-oxtel, a Go client for the Oxtel automation protocol spoken by
broadcast graphics and branding devices. An Oxtel command is a short ASCII
string: one to four command letters, then hexadecimal or decimal fields. On
the wire every command ends with a colon. The four reserved characters inside
a command (`\`, `|`, `;` and `:`) are each escaped as a backslash followed by
their two-digit hex code (`\5C`, `\7C`, `\3B`, `\3A`). The device answers a query with the same command letters and
a response body, and it also sends unsolicited "tally" messages when a layer,
a mixer, a lock or a media file changes state.

The model covers:

- the command encoders (`..._AsString` in the source). For each command, the
  contract states which fields appear at which offsets and how they read back
  with Go's `strconv` parsing;
- the guards of the sending methods. A command whose argument is out of range
  yields the source's error value instead of a command;
- the response decoders of the `Enquire...` methods. They are modelled as
  functions from the response body `val` to `Result`. A Go panic (index out of
  range, nil dereference) becomes an error value, so every body is handled;
- round trips between a set command and the matching enquiry decoder;
- the helper encoders of `utils.go`: boolean flags, media tallies, channel
  masks, session locks and audio program commands;
- the transport of `oxtel.go`: escaping and framing, splitting a byte
  stream into frames, routing a received frame to a tally or to the waiting
  caller, and the `Oxtel` client object with its connect, disconnect, send
  and request/response state. `Oxtel` is a class whose methods update
  `lastCommand`, the socket, the close-once flag and the logs of sent frames
  and delivered events. It also keeps the response frame the receive loop is
  stuck handing over when no caller waits (the next request receives it,
  stale or not), and whether the loop panicked on a channel that the first
  disconnect closed for good.

Go's fixed-width integers are subset types of `int` (`uint8` to `uint64`,
`int8` to `int64`). Where the source converts between widths, the conversion is written
out: `ToUint8` truncates and `ToInt16` reinterprets the sign bit. `fmt.Sprintf`
verbs (`%x`, `%X`, `%0Nx`, `%d`, `%c`, `%s`, `%t`) and `strconv`'s `ParseUint`,
`ParseInt`, `Atoi` and `ParseBool` are modelled by the functions they compute
on byte strings. A Go string is a sequence of bytes, and so is a Dafny
`string` here: one character stands for one byte.

## Model

| member | source | states |
|---|---|---|
| AbMixer.FadeToAAsString | oxtel/ab_mixer.go:51-54 | "U2" followed by the duration as three zero-padded hex digits whenever the duration fits in three digits |
| AbMixer.FadeToA | oxtel/ab_mixer.go:33-45 | fails with InvalidDurationError exactly when the duration exceeds 999; otherwise sends the "U2" command carrying the duration in hex |
| AbMixer.FadeToBAsString | oxtel/ab_mixer.go:74-77 | "U3" followed by the duration as three zero-padded hex digits |
| AbMixer.FadeToB | oxtel/ab_mixer.go:57-68 | InvalidDurationError exactly when the duration exceeds 999; otherwise the "U3" command with the duration |
| AbMixer.FadeABAsString | oxtel/ab_mixer.go:111-113 | "U5" followed by the duration as three zero-padded hex digits |
| AbMixer.FadeAB | oxtel/ab_mixer.go:93-105 | InvalidDurationError exactly when the duration exceeds 999; otherwise the "U5" command with the duration |
| AbMixer.SetTransitionTypeAsString | oxtel/ab_mixer.go:126-128 | "U6" followed by the transition type as two hex digits |
| AbMixer.AsymmetricVFadeABAsString | oxtel/ab_mixer.go:158-160 | "U8", the down duration and then the up duration, each as three hex digits |
| AbMixer.AsymmetricVFadeAB | oxtel/ab_mixer.go:132-152 | InvalidDurationError exactly when either duration exceeds 999; otherwise the "U8" command with both durations in order |
| AbMixer.SetAbsoluteMixAsString | oxtel/ab_mixer.go:182-184 | "U9" followed by the mix as three hex digits |
| AbMixer.SetAbsoluteMix | oxtel/ab_mixer.go:165-177 | InvalidMixError exactly when the mix exceeds 512; otherwise the "U9" command with the mix |
| AbMixer.AsymmetricTransitionAsString | oxtel/ab_mixer.go:214-216 | "UA", the destination as one hex digit, then the down and up durations as three hex digits each |
| AbMixer.AsymmetricTransition | oxtel/ab_mixer.go:189-209 | InvalidDurationError exactly when either duration exceeds 999; otherwise the "UA" command with destination and both durations |
| AbMixer.FadeToSpecificPositionAsString | oxtel/ab_mixer.go:248-250 | "UC", the destination mix and the duration, each as three hex digits |
| AbMixer.FadeToSpecificPosition | oxtel/ab_mixer.go:222-242 | the mix is checked first (InvalidMixError above 512), then the duration (InvalidDurationError above 999); succeeds exactly when both are in range |
| AbMixer.SelectMixerInputAsString | oxtel/ab_mixer.go:276-285 | space-separated words "UE", input, source and, only when an ARC is given, the ARC; each number reads back with ParseUint base 16 |
| AbMixer.EnquireMixerInputAsString | oxtel/ab_mixer.go:314-316 | the words "UE" and the input, which reads back in hex |
| AbMixer.EnquireMixerInput | oxtel/ab_mixer.go:290-309 | a decoded response holds the hex values of the first two body characters; an empty body is an index-out-of-range error |
| AbMixer.MixerInputDigits | oxtel/ab_mixer.go:296-308 | the decoder succeeds if and only if the body has at least two characters and both are hex digits, and then returns their values |
| AbMixer.EnquireMixMode | oxtel/ab_mixer.go:321-356 | a decoded response takes transition type, mix rate, wipe softness, mix angle and V-fade colour from fixed hex spans 0-1, 2-4, 5-7, 8-10 and 11-16; the colour is truncated to 8 bits; a body shorter than 2 is an index error |
| AbMixer.MixModeFields | oxtel/ab_mixer.go:327-355 | for any body whose spans hold those hex values, the decoder returns exactly them, and fails with a NumError when the softness does not fit in 8 bits |
| AbMixer.SetColorGeneratorColorAsString | oxtel/ab_mixer.go:374-376 | "UZ", the unit as one hex digit, then red, green and blue as two hex digits each |
| AbMixer.EnquireColorGeneratorColorAsString | oxtel/ab_mixer.go:420-422 | "UZ" followed by the unit in decimal |
| AbMixer.EnquireColorGeneratorColor | oxtel/ab_mixer.go:381-414 | a decoded colour takes the unit from character 0 and red, green, blue from the hex pairs at 1, 3 and 5; an empty body is an index error |
| AbMixer.ColorDecodes | oxtel/ab_mixer.go:387-413 | any body with those four hex fields decodes to exactly that unit and colour |
| AbMixer.ColorGeneratorRoundTrip | oxtel/ab_mixer.go:366-414 | decoding the body of a set-colour command gives back the unit and colour that were set |
| AbMixer.EnableVideoTalliesAsString | oxtel/ab_mixer.go:434-436 | "Y6" followed by a flag that ParseBool reads back as the requested setting |
| AbMixer.EnquireVideoTallies | oxtel/ab_mixer.go:441-449 | succeeds exactly on the twelve spellings ParseBool accepts, true for the six true spellings; anything else is a NumError |
| AbMixer.VideoTalliesRoundTrip | oxtel/ab_mixer.go:426-449 | the flag in the enable command is read back by the enquiry decoder as the same setting |
| Animations.StartAnimationAsString | oxtel/animations.go:16-18 | "S0" followed by the layer, which reads back in hex |
| Animations.RestartAnimationAsString | oxtel/animations.go:74-76 | "S4" followed by the layer, which reads back in hex |
| Animations.StopAnimationAsString | oxtel/animations.go:33-35 | "S1", the layer in hex, then a last character that ParseBool reads as the immediate flag |
| Animations.StopAnimationFlag | oxtel/animations.go:33-35 | stopping now and stopping at the end of the loop give commands that differ only in the last character, '1' and '0' |
| Animations.SelectionAnimationFrameAsString | oxtel/animations.go:53-55 | "S2", the layer in hex, then the frame as at least four hex digits that read back as the frame |
| Animations.EnablePlayStateTallyAsString | oxtel/animations.go:94-96 | "YS1" to enable and "YS0" to disable |
| Animations.EnquirePlayStateTally | oxtel/animations.go:101-108 | succeeds exactly on the twelve spellings ParseBool accepts, true for the six true spellings; anything else is a NumError |
| Animations.PlayStateTallyRoundTrip | oxtel/animations.go:83-108 | the flag in the enable command is read back by the enquiry decoder as the same setting |
| Audio.AudioPopSuppressionAsString | oxtel/audio.go:25-27 | "hDP", the source as one hex digit, then '1' or '0' for the setting |
| Audio.PauseResumeDolbyEncoderAsString | oxtel/audio.go:40-42 | "hDE", the input as one hex digit, then '1' to pause or '0' to resume |
| Audio.SetDolbyEncoderProfileAsString | oxtel/audio.go:61-63 | "hDA", the input and then the profile, one hex digit each |
| Audio.SetDolbyEncoderProfile | oxtel/audio.go:46-56 | InvalidDolbyProfileError exactly when the profile exceeds 4; otherwise the "hDA" command |
| Audio.EnquireDolbyEncoderProfileAsString | oxtel/audio.go:80-82 | "hDA" followed by the input, which reads back in hex |
| Audio.EnquireDolbyEncoderProfile | oxtel/audio.go:68-75 | succeeds exactly when the whole body parses as a 64-bit hex number, and returns that number |
| Audio.DolbyProfileRoundTrip | oxtel/audio.go:46-75 | a set-profile command begins with the enquiry for the same input, and its remainder decodes to the profile that was set |
| Watermarking.OverrideSDIInputColorSpaceAsString | oxtel/watermarking.go:16-18 | "hCSI", the input and then the colour space, one hex digit each |
| Watermarking.ChangeKantarWatermarkingChannelNameAsString | oxtel/watermarking.go:39-41 | "hKWM", the output in hex, the starting channel as two hex digits, then the audience name verbatim at the end |
| Watermarking.ChangeKantarWatermarkingChannelName | oxtel/watermarking.go:24-34 | InvalidAudioChannelError exactly when the starting channel exceeds 15; otherwise the "hKWM" command |
| Watermarking.KantarChannelLeadingZero | oxtel/watermarking.go:24-33 | every accepted starting channel is written with a leading '0' digit |
| Keyers.FadeKeyerAsString | oxtel/keyers.go:36-42 | words "1"+layer in hex and the direction in decimal, and, when a rate is given, the rate in hex as a third word |
| Keyers.FadeKeyer | oxtel/keyers.go:15-31 | InvalidDurationError exactly when a rate is given and exceeds 999; otherwise the fade command with the rate's value |
| Keyers.FadeKeyerAsStringAsWritten | oxtel/keyers.go:36-42 | as the source is written, the third word is the hex address of the rate variable, not the rate |
| Keyers.FadeKeyerAsWritten | oxtel/keyers.go:15-31 | the same guard as the corrected FadeKeyer, with the pointer's address in the command |
| Keyers.FadeKeyerPointerFinding | oxtel/keyers.go:27 | with a rate given and an address different from it, the command as written differs from the intended one; without a rate the two agree |
| Keyers.CutKeyerAsString | oxtel/keyers.go:60-62 | words "3"+layer in hex and the direction in decimal |
| Keyers.CutKeyerTallyRoundTrip | oxtel/oxtel.go:106-122 | a cut-keyer command echoed back by the device as a tally is routed as a keyer-position tally carrying the same layer and direction |
| Keyers.SetTransitionDurationAsString | oxtel/keyers.go:87-89 | words "B"+layer in hex, "1" and the rate in hex |
| Keyers.SetTransitionDuration | oxtel/keyers.go:70-81 | InvalidRateError exactly when the rate exceeds 999; otherwise the "B" command |
| Keyers.SetFaderAngleAsString | oxtel/keyers.go:108-110 | words "@"+layer in hex, "1" and the angle in hex |
| Keyers.SetFaderAngle | oxtel/keyers.go:92-103 | InvalidAngleError exactly when the angle exceeds 512; otherwise the "@" command |
| AudioLoudness.SetAudioLoudness | oxtel/audio_loudness.go:21-36 | fails with InvalidAudioProfileError exactly when the first program, or the second when given, is rejected by the program builder; otherwise the command is the first program's text followed by the second's |
| AudioLoudness.SetAudioLoudnessAsString | oxtel/audio_loudness.go:42-51 | the errors are discarded and each program's text is what `buildAudioProgramCommand` returned, the empty string for a rejected program: both accepted give the two commands in order, a rejected second program leaves the first's command alone, a rejected first program leaves the second's, both rejected give the empty text, and without a second program the text is the first program's |
| AudioLoudness.ScanChannels | oxtel/audio_loudness.go:76-108 | the loop over two-character hex pairs succeeds exactly when every pair parses; channel k is marked exactly when some pair has value k; on failure the error is that of the first bad pair |
| AudioLoudness.StepBefore | oxtel/audio_loudness.go:76-80 | one loop step extends the "all pairs parsed so far" and "channel listed so far" facts by the pair at the current index |
| AudioLoudness.MarkStep | oxtel/audio_loudness.go:82-105 | marking channel v (only when v is 1 to 8) keeps the invariant that the flags are exactly the channels listed so far |
| AudioLoudness.GetAudioLoudness | oxtel/audio_loudness.go:60-209 | without a channel the body is a channel list and only the channel flags are filled; with a channel above 8 the call fails before sending; with one, the body is the sdi digit, the program and preset hex pairs and then a channel list, and the result holds those values |
| AudioLoudness.GetAudioLoudnessAsString | oxtel/audio_loudness.go:214-220 | "jAL", the sdi as two hex digits, and the channel as two more hex digits only when one is given |
| AudioLoudness.ChannelListScan | oxtel/audio_loudness.go:76-108 | a reply made of the two-digit hex rendering of a list of channels scans without error, and a channel is listed exactly when it is in the list |
| AudioLoudness.AllChannelsReply | oxtel/audio_loudness.go:76-108 | the same for a reply that is only a channel list |
| AudioLoudness.ChannelReply | oxtel/audio_loudness.go:130-209 | a reply made of the sdi, program and preset fields and a channel list passes the header checks and yields exactly those values and channels |
| AudioLoudness.DisableAudioLoudnessAsString | oxtel/audio_loudness.go:239-241 | "jALP" followed by the sdi as two hex digits |
| AudioLoudness.DisableAudioLoudness | oxtel/audio_loudness.go:223-234 | InvalidSdiError exactly when the sdi exceeds 2; otherwise the "jALP" command |
| AudioLoudness.EnableAudioLoudnessAsString | oxtel/audio_loudness.go:262-264 | "jALR" followed by the sdi as two hex digits |
| AudioLoudness.EnableAudioLoudness | oxtel/audio_loudness.go:246-257 | InvalidSdiError exactly when the sdi exceeds 2; otherwise the "jALR" command |
| AudioLoudness.ChangeAudioLoudnessProfileAsString | oxtel/audio_loudness.go:296-298 | "jALA", the sdi and the profile, two hex digits each |
| AudioLoudness.ChangeAudioLoudnessProfile | oxtel/audio_loudness.go:270-290 | the sdi is checked first (InvalidSdiError above 2), then the profile (InvalidAudioProfileError above 16); succeeds exactly when both are in range |
| AudioLoudness.GetAudioLoudnessProfileAsString | oxtel/audio_loudness.go:325-327 | "jALA" followed by the sdi as two hex digits |
| AudioLoudness.GetAudioLoudnessProfile | oxtel/audio_loudness.go:303-319 | InvalidSdiError above sdi 2; otherwise succeeds exactly when the body parses as an 8-bit hex number, and returns it |
| AudioLoudness.LoudnessProfileRoundTrip | oxtel/audio_loudness.go:270-319 | the profile field of a change-profile command decodes to the profile that was set |
| AudioLoudness.GetLoudnessLicenseStatus | oxtel/audio_loudness.go:332-339 | a body shorter than two characters is an index error; otherwise the result is ParseBool of the second character alone |
| AudioMixer.SetAudioABMixerFadeRateAsString | oxtel/audio_mixer.go:26-28 | "j31" followed by the duration as three hex digits |
| AudioMixer.SetAudioABMixerFadeRate | oxtel/audio_mixer.go:9-21 | InvalidDurationError exactly when the duration exceeds 999; otherwise the "j31" command |
| AudioMixer.AudioCutABAsString | oxtel/audio_mixer.go:40-42 | "j40" followed by the destination as one hex digit |
| AudioMixer.AudioFadeABAsString | oxtel/audio_mixer.go:56-58 | "j41" followed by the destination as one hex digit |
| AudioMixer.SetAudioABFollowVideoABAsString | oxtel/audio_mixer.go:74-76 | "j51" followed by a flag that ParseBool reads back as the setting |
| AudioMixer.EnquireAudioABFollowVideoAB | oxtel/audio_mixer.go:81-97 | succeeds exactly when the body has a hex digit and then a ParseBool flag in its first two characters, and returns both |
| AudioMixer.FollowVideoRoundTrip | oxtel/audio_mixer.go:64-97 | a reply carrying the flag of a follow-video command decodes to that setting |
| AudioMixer.SetAudioABPositionAsString | oxtel/audio_mixer.go:124-126 | "ja" followed by the mix as three hex digits |
| AudioMixer.SetAudioABPosition | oxtel/audio_mixer.go:107-119 | InvalidMixError exactly when the mix exceeds 512; otherwise the "ja" command |
| AudioMixer.SetAudioABMixModeAsString | oxtel/audio_mixer.go:138-140 | "jb" followed by the mode as one hex digit |
| AudioMixer.AudioABAsymmetricTransitionAsString | oxtel/audio_mixer.go:159-161 | "jc", the direction as one hex digit, then both rates as three hex digits each |
| AudioMixer.AudioABFadeToPositionAsString | oxtel/audio_mixer.go:192-194 | "jd", the mix and the duration as three hex digits each |
| AudioMixer.AudioABFadeToPosition | oxtel/audio_mixer.go:166-186 | the mix is checked first (InvalidMixError above 512), then the duration (InvalidDurationError above 999) |
| AudioMixer.GainHead | oxtel/audio_mixer.go:261-265 | "jAG", the output as two hex digits, and the four-character channel mask, with the corrected mask of `Utils.BuildChannelMask` |
| AudioMixer.SetAudioGainAsString | oxtel/audio_mixer.go:224-228 | the gain head followed by the gain in decimal, which Atoi reads back as the gain |
| AudioMixer.SetAudioGain | oxtel/audio_mixer.go:206-219 | a missing gain is a nil dereference; InvalidGainError exactly when the gain is outside -100 to 30; otherwise the gain command |
| AudioMixer.SetAudioGainAsWritten | oxtel/audio_mixer.go:206-219 | as written, the decimal at the end is the address of the gain variable rather than the gain |
| AudioMixer.SetAudioGainPointerFinding | oxtel/audio_mixer.go:216 | for an accepted gain and any address above 30, the command as written differs from the intended one |
| AudioMixer.EnquireAudioGainAsString | oxtel/audio_mixer.go:261-265 | as corrected: the gain head, whose mask field is the hex value of the channel mask |
| AudioMixer.EnquireAudioGainAsStringAsWritten | oxtel/audio_mixer.go:261-265 | as written, with the `int16` mask: the same first five characters as the corrected command, the as-written mask text after them, equal to the corrected command exactly when channel 16 is not selected, and a minus sign at position 5 when it is |
| AudioMixer.EnquireAudioGain | oxtel/audio_mixer.go:231-256 | a decoded response takes the source from hex span 0-1, the mask from the signed 16-bit hex span 2-5 rendered as 16 binary digits, and the gain from Atoi of the rest, truncated to 8 bits |
| AudioMixer.AudioGainRoundTrip | oxtel/audio_mixer.go:206-256 | when channel 16 is not selected, decoding the body of a set-gain command returns the output, the mask and the gain that were set |
| AudioMixer.MaskParse | oxtel/audio_mixer.go:243 | when channel 16 is not selected, the mask text parses as a signed 16-bit hex number equal to the mask value |
| AudioProfile.SetAudioProfileAsString | oxtel/audio_profile.go:27-29 | "jAP", the source in hex and the profile as the last two hex digits |
| AudioProfile.SetAudioProfile | oxtel/audio_profile.go:10-22 | InvalidAudioProfileError exactly when the profile exceeds 16; otherwise the "jAP" command |
| AudioProfile.EnquireAudioProfileAsString | oxtel/audio_profile.go:62-64 | "jAP" followed by the source in hex |
| AudioProfile.EnquireAudioProfile | oxtel/audio_profile.go:36-57 | succeeds exactly when the first character is a hex digit and the rest parses as an 8-bit hex number; an empty body is an index error, any other failure a NumError |
| AudioProfile.AudioProfileRoundTrip | oxtel/audio_profile.go:10-57 | the body of a set-profile command decodes to the same source and profile, and the same body under "jAY" is routed as an audio-profile tally with those values |
| AudioProfile.ClassifyAudioProfile | oxtel/oxtel.go:273-290 | a frame starting with "jAY" is decoded as an audio-profile tally |
| AudioProfile.EnableAudioProfileTalliesAsString | oxtel/audio_profile.go:78-80 | "jAT1" to enable and "jAT0" to disable |
| AudioProfile.EnquireAudioProfileTallies | oxtel/audio_profile.go:85-93 | succeeds exactly on the spellings ParseBool accepts and returns their truth value |
| AudioProfile.AudioProfileTalliesRoundTrip | oxtel/audio_profile.go:68-93 | the flag of the enable command reads back as the same setting |
| Client.Oxtel.constructor | oxtel/oxtel.go:28-36 | a new client keeps the address and port, has no connection, no last command, no cancel function and nothing sent or delivered |
| Client.Oxtel.Connect | oxtel/oxtel.go:38-53 | a failed dial returns the dial error and changes nothing; a successful one stores the socket and the cancel function; neither touches the close-once state, the last command or the logs |
| Client.Oxtel.Disconnect | oxtel/oxtel.go:55-72 | without a connection nothing happens; otherwise the connection becomes nil, and only the first disconnect ever cancels the context, closes both channels and closes the socket |
| Client.ReconnectLeavesSocketOpen | oxtel/oxtel.go:60-71 | connect, disconnect, connect and disconnect again close only the first socket, because the close-once guard is never reset |
| Client.Oxtel.SendCommand | oxtel/oxtel.go:460-476 | with no connection the write panics (nil dereference); a successful write appends the escaped, colon-terminated frame to the wire; a write ending in EOF disconnects; any other failure leaves the state unchanged |
| Client.Oxtel.SendCommandExpectResponse | oxtel/oxtel.go:478-500 | records the command as the last command, sends command and data and ignores an EOF from the write; after a disconnect the receive from the closed channel panics; otherwise a frame the receive loop is stuck on is received first and answers the request if it starts with the command (stale or not), panics if shorter than it, and is dropped otherwise; then the waiting frames and the inbound ones are routed until the first response, whose body is returned (a timeout when there is none), the tallies before it reaching a listener; the frames after it are routed with nobody waiting, so the loop may be stuck again |
| Client.Oxtel.Await | oxtel/oxtel.go:485-499 | the wait over queued frames returns the outcome of the first response among them, counts the frames it used, and delivers the events of the frames before the response |
| Client.Oxtel.DeliverUntilStop | oxtel/oxtel.go:98-101 | the loop stops at the first frame it cannot hand on (a response with nobody waiting, or, once the channels are closed, also a tally), having delivered exactly the events of the frames before it |
| Client.Oxtel.Wait | oxtel/oxtel.go:485-491 | the wait ends as `WaitOutcome` says: a held frame is received first and answers, panics or is dropped; otherwise the first queued response answers, and the tallies before it are delivered |
| Client.Oxtel.Receive | oxtel/oxtel.go:485-499 | the receiving half of a request with the channels open: the wait, then the frames after the one that ended it routed with nobody waiting |
| Client.WaitOutcome | oxtel/oxtel.go:488-490 | a held frame that starts with the command is the answer, its body returned; one shorter than the command panics; one that starts otherwise is dropped and the wait goes on over the queue |
| Client.Oxtel.Deliver | oxtel/oxtel.go:452-456 | a tally is delivered only when a listener is ready (the send does not block); other frames deliver nothing |
| Client.Oxtel.RxLoop | oxtel/oxtel.go:74-96 | the stream is cut into frames; after a panic nothing more happens; while the loop is stuck sending a held frame the new frames wait unread behind it; otherwise they are routed as `Dispatch` says |
| Client.Oxtel.Dispatch | oxtel/oxtel.go:98-101 | frames are routed against the last command until one is a response with no caller waiting: the loop is stuck on it, with the frames behind it unread, until the next request receives it; once the channels are closed the first tally or response instead panics the loop (oxtel/oxtel.go:65-66, 453-456); the events delivered are those of the frames before that frame |
| Client.DispatchingOpen | oxtel/oxtel.go:98-101 | with the channels open the loop never panics; it is stuck exactly when some frame responds to the last command, on the first such frame with the rest unread; when not stuck every tally reached a ready listener |
| Client.DispatchingClosed | oxtel/oxtel.go:65-66 | with the channels closed nothing is published or held, and the loop panics exactly when some frame routes as a tally or a response |
| Client.StopAtOpen | oxtel/oxtel.go:98-101 | with the channels open the loop stops exactly at the first frame that responds to the last command |
| Client.ReconnectThenTallyPanics | oxtel/oxtel.go:33-34 | the channels are made once and closed by the first disconnect, so after a reconnect the first frame that classifies as a tally panics the receive loop and no listener receives it |
| Client.StaleResponse | oxtel/oxtel.go:485-491 | a response that arrives after its request timed out is held by the receive loop and returned, stale, to the next request for the same command, whose own answer is then held in turn |
| Client.TimedOutThenLate | oxtel/oxtel.go:98-101 | after a request times out, its late response leaves the loop stuck on it with nothing else unread |
| Client.Routes | oxtel/oxtel.go:98-101 | one routing per frame, each against the same last command |
| Client.PublishedTallies | oxtel/oxtel.go:102-456 | with no command outstanding, every frame that classifies as a tally has its event among those published |
| Client.TalliesContain | oxtel/oxtel.go:452-456 | every tally among the routed frames is among the published events |
| Transport.EscapeChar | oxtel/oxtel.go:461-464 | a reserved character (backslash, pipe, semicolon, colon) becomes a backslash and two more characters; any other character is kept |
| Transport.Frame | oxtel/oxtel.go:461-467 | every frame written ends in the colon terminator |
| Transport.EscapeIsPerCharacter | oxtel/oxtel.go:461-464 | the four replacements in the source's order, backslash first, equal escaping each character on its own |
| Transport.EscapeAppend | oxtel/oxtel.go:461-464 | escaping distributes over concatenation |
| Transport.EscapedClean | oxtel/oxtel.go:461-464 | an escaped command contains no colon, pipe or semicolon |
| Transport.FrameShape | oxtel/oxtel.go:461-467 | a frame has exactly one colon, at its end, and no pipe or semicolon |
| Transport.FramePlain | oxtel/oxtel.go:461-467 | a command with no reserved character is sent as itself followed by a colon |
| Transport.UnescapeEscape | oxtel/oxtel.go:461-464 | reading every backslash escape back as the character with that hex code recovers the command: the escaping loses nothing |
| Transport.UnescapeCode | oxtel/oxtel.go:461-464 | the two characters after the backslash are the hex code of the reserved character |
| Transport.FrameInjective | oxtel/oxtel.go:461-467 | two different commands never give the same frame |
| Transport.SplitLines | oxtel/oxtel.go:81-88 | reading up to each colon cuts the stream into lines that each end in their only colon, plus a colon-free tail; together they are the stream |
| Transport.SplitConcat | oxtel/oxtel.go:81-88 | cutting the concatenation of colon-terminated lines gives back exactly those lines |
| Transport.KeepFramesAll | oxtel/oxtel.go:90-93 | trimming never empties a line, so every line becomes one frame: the line without its leading white space |
| Transport.TrimLine | oxtel/oxtel.go:90 | TrimSpace of a line removes only its leading white space and leaves a frame |
| Transport.FramesOfWire | oxtel/oxtel.go:81-93 | the frames the client writes, read back from the concatenated stream, are exactly those frames, whenever no escaped command begins with white space |
| Transport.FramesOfLines | oxtel/oxtel.go:81-93 | a stream made of colon-terminated lines without leading white space reads back as exactly those lines |
| Transport.Route | oxtel/oxtel.go:99-101 | a frame goes to the waiting caller exactly when a command is outstanding and the frame starts with it; a frame shorter than the last command panics; with no command outstanding every frame is classified |
| Transport.PrefixesExclusive | oxtel/oxtel.go:106-382 | no frame starts with two different tally prefixes, so at most one branch of the classifier applies |
| Transport.Classify | oxtel/oxtel.go:102-456 | a decoded tally starts with its own prefix and keeps the frame without its colon as Raw; a frame of five or more characters with no tally prefix is passed on whole as a raw message; shorter unknown frames panic |
| Transport.DecodeKeyerPosition | oxtel/oxtel.go:106-123 | a "3" frame decodes exactly when its character 1 is a hex digit and its character 3 a decimal digit; the tally then carries the frame without its colon as Raw, that hex layer and that decimal direction |
| Transport.DecodeImageTally | oxtel/oxtel.go:124-155 | a "Y9" or "YA" frame decodes exactly when its character 2 is a hex digit; the load or preload tally then carries the frame as Raw, that digit as the layer and the rest of the frame as the template name |
| Transport.DecodeMediaTally | oxtel/oxtel.go:156-210 | a "YB" frame decodes exactly when characters 2 to 7 are ParseBool flags and character 8 a hex digit; the tally then carries the frame as Raw, the six flags in order, that digit as the action and the rest as the file name |
| Transport.DecodePlayStateTally | oxtel/oxtel.go:211-229 | a "YS" frame decodes exactly when characters 2 and 3 are hex digits; the tally then carries the frame as Raw, the layer and the state |
| Transport.DecodeVideoTally | oxtel/oxtel.go:230-272 | a "Y6" frame decodes exactly when characters 2 to 6 are hex digits and characters 7-8 and 9-10 hex pairs; the tally then carries the frame as Raw, the mixer input, both layers, both mixer sources and the two unused bytes from those places |
| Transport.DecodeAudioProfileTally | oxtel/oxtel.go:273-290 | a "jAY" frame decodes exactly when character 3 is a hex digit and characters 4-5 a hex pair; the tally then carries the frame as Raw, that source and that profile |
| Transport.DecodeLockTally | oxtel/oxtel.go:291-348 | succeeds exactly when the frame holds two 8-digit 32-bit hex words after "hOLY", and returns the session and permanent locks decoded from them |
| Transport.ClassifyLonger | oxtel/oxtel.go:273-450 | for frames that match none of the one- and two-character prefixes: a decoded tally starts with its own prefix and keeps the frame without its colon as Raw, and a frame of five or more characters with no tally prefix is passed on whole |
| Transport.NoTallyPrefix | oxtel/oxtel.go:446-450 | a frame of five or more characters that failed every prefix test starts with none of the tally prefixes |
| Transport.ClassifyLock | oxtel/oxtel.go:291-348 | a frame starting with "hOLY" is decoded as a lock tally |
| Transport.LockTallyRoundTrip | oxtel/oxtel.go:291-348 | a lock tally built from two lock settings with the source's lock encoding decodes to exactly those settings |
| Transport.DecodeExternalIOSourceTally | oxtel/oxtel.go:349-381 | a "hXSY" frame decodes exactly when the five pairs from character 4 are hex; the tally then carries the frame as Raw, the direction, id, type, configuration id and state from those pairs |
| Transport.TallyNetwork | oxtel/oxtel.go:397-430 | which network fields are present follows the IO type (interface for every type but SDI, first address and port for the two 2022-6 types, second address and port for 2022-6/2022-7, SDP file for 2110), each read from its comma-separated part |
| Transport.DecodeDynamicConfigTally | oxtel/oxtel.go:382-445 | a "hXDCY" frame decodes exactly when the pairs at characters 5, 7 and 9 are hex and the network fields parse for that IO type; the tally then carries the frame as Raw, the direction, id and type from those pairs, and the network settings `TallyNetwork` reads from the comma-separated data |
| Transport.Body | oxtel/oxtel.go:489-491 | the body is the frame without the command prefix and its last character; a frame that is only the command panics |
| Transport.FirstResponse | oxtel/oxtel.go:485-491 | the index of the first frame that starts with the command; no frame before it does |
| Transport.AwaitResponseFirst | oxtel/oxtel.go:485-499 | the wait times out exactly when no frame starts with the command, and otherwise returns the body of the first one that does |
| Transport.AwaitEmptyCommand | oxtel/oxtel.go:478-499 | with an empty command no frame is routed as a response, so the wait always times out |
| Transport.StickyLastCommand | oxtel/oxtel.go:99-101 | the last command is never cleared, so any later frame that starts with it goes to the response path |
| Transport.VideoTallyCaptured | oxtel/oxtel.go:230 | after the video-tally enquiry "Y6", every "Y6" tally frame is taken as a response and never classified; before any command it is not |
| EasyText.UpdateTextFieldAsString | oxtel/easytext.go:32-34 | "Z0", the layer in hex, the field as two hex digits, the flags digit, then the text verbatim |
| EasyText.UpdateTextField | oxtel/easytext.go:15-27 | InvalidFieldError exactly when the field is 255; otherwise the "Z0" command |
| EasyText.UpdatePreloadedTextFieldAsString | oxtel/easytext.go:64-66 | "hZ0", the layer, the field as two hex digits, the flags digit, then the text |
| EasyText.PreloadedTextFieldPrefix | oxtel/easytext.go:64-66 | the preloaded command is the plain update command with an "h" in front |
| EasyText.UpdatePreloadedTextField | oxtel/easytext.go:46-58 | InvalidFieldError exactly when the field is 255; otherwise the "hZ0" command |
| EasyText.RenderBoxAsString | oxtel/easytext.go:80-82 | "Z0", the layer in hex and the field as two hex digits, nothing after |
| EasyText.UpdateTextFieldExtendsRenderBox | oxtel/easytext.go:32-34 | the render-box command is a proper prefix of every update command for the same layer and field |
| EasyText.RenderBoxAllFields | oxtel/easytext.go:71-107 | field 255 renders every box ("ff") but is refused by the update and change-image commands |
| EasyText.ChangeImageAsString | oxtel/easytext.go:105-107 | "Z4", the layer, the field as two hex digits, then the file name verbatim |
| EasyText.ChangeImage | oxtel/easytext.go:87-99 | InvalidFieldError exactly when the field is 255; otherwise the "Z4" command |
| EasyText.StopTextFieldAnimationAsString | oxtel/easytext.go:133-135 | "Zf", the layer, the field as two hex digits and '1' or '0' for the immediate flag |
| EasyText.StopTextFieldAnimation | oxtel/easytext.go:115-127 | InvalidFieldError exactly when the field is 255; otherwise the "Zf" command |
| EasyText.PauseRestartStrapAsString | oxtel/easytext.go:157-159 | "Zg", the layer, the field as two hex digits and '1' or '0' for restart |
| EasyText.PauseRestartStrap | oxtel/easytext.go:140-152 | InvalidFieldError exactly when the field is 255; otherwise the "Zg" command |
| EasyText.FlagOnlyInLastCharacter | oxtel/easytext.go:133-159 | the two settings of the strap and stop-animation flags give commands that differ only in their last character |
| ExternalIO.EnquireNumberOfExternalIOConfigurationsAsString | oxtel/external_io.go:51-54 | "hXNC", the IO type and the direction as two hex digits each |
| ExternalIO.EnquireNumberOfExternalIOConfigurations | oxtel/external_io.go:19-46 | succeeds exactly when the type and direction pairs and the rest of the body parse as 8-bit hex numbers, and returns those three values |
| ExternalIO.NumberOfConfigurationsRoundTrip | oxtel/external_io.go:19-46 | a reply of three hex bytes decodes to exactly the type, direction and count it carries |
| ExternalIO.EnquireExternalIOConfigurationAsString | oxtel/external_io.go:148-150 | "hXNC", the IO type, the direction and the index as two hex digits each |
| ExternalIO.EnquireExternalIOConfiguration | oxtel/external_io.go:68-143 | a decoded configuration takes type, direction, index and configuration id from the hex pairs of the first eight characters, the name from the rest of the first comma-separated field, and exactly the network fields its type carries |
| ExternalIO.TallyNetworkShaped | oxtel/external_io.go:97-127 | whatever the network decoder returns fits the IO type |
| ExternalIO.NetworkRoundTrip | oxtel/external_io.go:97-127 | network settings that fit their type, written as comma-separated parts in the source's order, decode to the same settings |
| ExternalIO.ConfigurationRoundTrip | oxtel/external_io.go:68-143 | every configuration whose network settings fit its type and whose texts hold no comma decodes from its reply |
| ExternalIO.SetExternalIOSourceAsString | oxtel/external_io.go:163-165 | "hXS" and five hex bytes: direction, id, type, configuration id and the restart flag as 00 or 01 |
| ExternalIO.EnquireExternalIOSourceAsString | oxtel/external_io.go:213-215 | "hXS", the direction and the id as two hex digits each |
| ExternalIO.EnquireExternalIOSource | oxtel/external_io.go:170-208 | succeeds exactly when the five leading hex pairs parse, and returns direction, id, type, configuration id and state from them in order |
| ExternalIO.ExternalIOSourceRoundTrip | oxtel/external_io.go:156-208 | the body of a set-source command decodes to the same direction, id, type and configuration, with state 1 exactly when a restart was forced |
| ExternalIO.SetExternalIODynamicConfiguration | oxtel/external_io.go:225-264 | InvalidParametersError exactly when the type is not 2022-6, 2022-6/2022-7 or 2110 or when a parameter that type needs is missing; otherwise the "hXDC" command |
| ExternalIO.SetExternalIODynamicConfigurationAsString | oxtel/external_io.go:269-280 | with no checks, a missing parameter of the type is a nil dereference and any other type gives the bare "hXDC"; a full command is produced exactly when the parameters are given |
| ExternalIO.EnquireExternalIODynamicConfigurationAsString | oxtel/external_io.go:365-367 | "hXDC", the direction, the id and the type as two hex digits each |
| ExternalIO.EnquireExternalIODynamicConfiguration | oxtel/external_io.go:288-360 | a decoded configuration takes direction, id and type from the first three hex pairs, the interface from the second comma-separated field and the other network fields as the type carries them; a body with no comma is an index error |
| ExternalIO.DynamicConfigurationRoundTrip | oxtel/external_io.go:225-360 | a dynamic configuration the set command accepts reads back unchanged from a reply laid out like that command's body |
| ExternalIO.EnableExternalIOTallyAsString | oxtel/external_io.go:379-381 | "hXIOT1" to enable and "hXIOT0" to disable |
| ExternalIO.EnquireExternalIOTally | oxtel/external_io.go:386-393 | succeeds exactly on the spellings ParseBool accepts and returns their truth value |
| ExternalIO.ExternalIOTallyRoundTrip | oxtel/external_io.go:372-393 | the flag of the enable command reads back as the same setting |
| ExternalIO.EnquireExternalIOSupported | oxtel/external_io.go:405-412 | succeeds exactly on the spellings ParseBool accepts and returns their truth value |
| ExternalIO.NamedIds | oxtel/external_io.go:438-448 | the loop over name and id parts succeeds exactly when every id it reaches parses as a decimal 8-bit number; the entries are the names and ids in order; on failure the error is that of the first bad id |
| ExternalIO.EnquireExternalInputs | oxtel/external_io.go:425-455 | the semicolon-separated reply starts with the hex count; success exactly when the count and every id parse, and the inputs are the name and id pairs in order |
| ExternalIO.EnquireOutputs | oxtel/external_io.go:468-498 | the same layout for outputs: the hex count, then the name and id pairs in order |
| ExternalIO.NamedIdsRoundTrip | oxtel/external_io.go:425-455 | a reply built from a count and entries whose names hold no semicolon splits back into that count and those entries |
| Locks.SetSessionLocksAsString | oxtel/locks.go:27-29 | "hSL" followed by the locks word, which reads back with ParseInt as a signed 32-bit hex number; a non-negative word is exactly eight hex digits |
| Locks.SetPermanentLocksAsString | oxtel/locks.go:131-133 | "hPL" followed by the locks word, read back the same way |
| Locks.DecodeLocksBody | oxtel/locks.go:34-67 | succeeds exactly when the body parses as a signed 32-bit hex number; the mixer lock is bit 0 and layer k's lock is bit 8+k (the same decoding serves the global and permanent enquiries at locks.go:79-112 and 138-170) |
| Locks.LocksRoundTrip | oxtel/locks.go:20-67 | the body of a set-session or set-permanent command built from mixer and layer locks decodes to those locks |
| Locks.DecodeLocksBodyOtherBits | oxtel/locks.go:45-53 | the decoded locks depend only on bits 0 and 8 to 15 of the reply |
| Locks.EnableOxtelLockTallyAsString | oxtel/locks.go:190-192 | "hOLT1" to enable and "hOLT0" to disable |
| Locks.EnquireOxtelLockTally | oxtel/locks.go:197-204 | succeeds exactly on the spellings ParseBool accepts and returns their truth value |
| Locks.LockTallyFlagRoundTrip | oxtel/locks.go:183-204 | the flag of the enable command reads back as the same setting |
| Scheduler.AddScheduledCommandAsString | oxtel/scheduler.go:28-30 | "i0", the time as two-digit decimal hours, minutes, seconds and frames, a semicolon and the command verbatim at the end |
| Scheduler.EnquireCurrentTime | oxtel/scheduler.go:45-83 | a decoded time takes the field rate from the first decimal digit and hours, minutes, seconds and frames from the two-digit decimal spans that follow; an empty body is an index error and any other failure of a nine-character body a NumError |
| Scheduler.CurrentTimeDigits | oxtel/scheduler.go:51-74 | a body of nine or more characters decodes exactly when its first nine characters are decimal digits |
| Scheduler.CurrentTimeOfFields | oxtel/scheduler.go:45-83 | any body holding those decimal fields decodes to exactly that time |
| Scheduler.CurrentTimeRoundTrip | oxtel/scheduler.go:20-83 | the time written into a scheduled command, behind a field-rate digit, decodes to the same rate and time |
| SystemStatus.EnquireLatencyAsString | oxtel/system_status.go:39-41 | "hLAT" followed by the source, which reads back in hex |
| SystemStatus.EnquireLatency | oxtel/system_status.go:14-33 | an empty body is an index error |
| SystemStatus.LatencyDigits | oxtel/system_status.go:20-32 | the decoder succeeds exactly when the first two characters are hex digits and returns their values as source and latency; a body of one hex digit is an index error |
| SystemStatus.EnquireNumberOfGraphicLayers | oxtel/system_status.go:46-52 | succeeds exactly when Atoi accepts the whole body, and returns that count |
| SystemStatus.GraphicLayersRoundTrip | oxtel/system_status.go:46-52 | every 64-bit count written in decimal reads back unchanged |
| SystemStatus.EnquireSystemStatus | oxtel/system_status.go:68-137 | an empty body is an index error; a decoded status takes the system mode from decimal digit 0, the version halves from hex spans 1-3 and 4-6, the video standard from decimal digit 7, preview source and the four DSK rates from the three-digit hex spans 8 to 22, and the not-accessed flag from hex digit 23 |
| SystemStatus.SystemStatusFields | oxtel/system_status.go:68-137 | any body holding those fields decodes to exactly that status |
| SystemStatus.SystemModeDecimalOnly | oxtel/system_status.go:74-77 | a system mode written as a hex letter makes the decoder fail with a NumError |
| SystemStatus.VideoStandardDecimalOnly | oxtel/system_status.go:86-89 | a video standard written as a hex letter makes the decoder fail with a NumError |
| SystemStatus.EnquireVideoLayerStatusAsString | oxtel/system_status.go:194-196 | "N" followed by the layer, which reads back in hex |
| SystemStatus.EnquireVideoLayerStatus | oxtel/system_status.go:151-189 | a decoded status takes fader angle, fade-to-black angle and two unused fields from the three-digit hex spans at 0, 3, 6 and 9 and the last unused field from the pair at 12; a body shorter than 3 is an index error |
| SystemStatus.VideoLayerStatusFields | oxtel/system_status.go:151-189 | any body holding those fields decodes to exactly that status |
| SystemStatus.EnquireCommandAvailabilityAsString | oxtel/system_status.go:228-230 | "X3" followed by the two command bytes as raw characters |
| SystemStatus.EnquireCommandAvailability | oxtel/system_status.go:204-222 | succeeds exactly when the third character is a ParseBool flag, and returns the two echoed bytes and that flag; a body shorter than 3 is an index error |
| SystemStatus.CommandAvailabilityRoundTrip | oxtel/system_status.go:204-230 | the device's echo of the two queried bytes followed by a flag decodes to those bytes and that flag |
| SystemStatus.EnquireSlaveLayerStatus | oxtel/system_status.go:236-298 | succeeds exactly when the first eight characters are ParseBool flags and characters 8 to 15 parse as a signed 32-bit hex number; the layer states and the unused word are those values |
| SystemStatus.SlaveLayerStatusRoundTrip | oxtel/system_status.go:236-298 | eight flag digits followed by a non-negative word in eight hex digits decode to those layer states and that word |
| SystemStatus.EnquireFullVersionNumber | oxtel/system_status.go:312-348 | succeeds exactly when the body has at least five dot-separated parts and the first four pass Atoi; returns those numbers, the fifth part as build and the whole body as text |
| SystemStatus.FullVersionRoundTrip | oxtel/system_status.go:312-348 | a dotted version whose build holds no dot decodes to its four numbers and its build |
| TemplateFileManagement.EnquireFileInfoAsString | oxtel/template_file_management.go:34-36 | "R3" followed by the file name verbatim |
| TemplateFileManagement.EnquireFileInfo | oxtel/template_file_management.go:13-28 | succeeds exactly when the first character is a ParseBool flag; the flag says whether the file was found and the rest of the body is its name |
| TemplateFileManagement.FileInfoRoundTrip | oxtel/template_file_management.go:13-28 | a found flag digit followed by a name decodes to that flag and name |
| TemplateFileManagement.QueryFirstFileAsString | oxtel/template_file_management.go:69-75 | "R4" followed by the folder, or by "$VIDEO" when no folder is given |
| TemplateFileManagement.QuerySubsequentFileAsString | oxtel/template_file_management.go:111-117 | "R5" followed by the folder, or by "$VIDEO" when no folder is given |
| TemplateFileManagement.DecodeFileQuery | oxtel/template_file_management.go:45-64 | succeeds exactly when the body has two characters and the first is a ParseBool flag; returns the end-of-directory flag and the name after the separator (shared with the subsequent-file query at template_file_management.go:86-106) |
| TemplateFileManagement.FileQueryRoundTrip | oxtel/template_file_management.go:45-106 | a flag digit, any separator and a name decode to that flag and name |
| TemplateFileManagement.EnquireExtendedFileInformationAsString | oxtel/template_file_management.go:223-225 | "R6" followed by the file name verbatim |
| TemplateFileManagement.ExistsFlag | oxtel/template_file_management.go:131-139 | the first character is read with Atoi and then intToBool: '1' is true, '0' false, any other digit the base error, any non-digit a NumError, an empty body an index error |
| TemplateFileManagement.EnquireExtendedFileInformation | oxtel/template_file_management.go:124-218 | a decoded record takes the exists flag from character 0, the twelve numeric fields from their fixed spans read as signed 64-bit hex, and the file name from character 32 on |
| TemplateFileManagement.ExtendedFileInfoFields | oxtel/template_file_management.go:124-218 | any body holding those fields decodes to exactly that record |
| TemplateFileManagement.SignedHexFieldsAll | oxtel/template_file_management.go:141-212 | reading the spans in order succeeds exactly when every span parses, and then yields each span's value in order |
| TemplateFileManagement.ValidateTemplateAsString | oxtel/template_file_management.go:259-261 | "RA" followed by the file name verbatim |
| TemplateFileManagement.ValidateTemplate | oxtel/template_file_management.go:231-254 | splits the body at "|"; succeeds exactly when there is a second part of five or more characters whose first is a ParseBool flag and whose next four parse as a signed 16-bit hex count; the name is the first part |
| TemplateFileManagement.ValidateTemplateRoundTrip | oxtel/template_file_management.go:231-254 | a name without "|", a flag digit and a non-negative count in four hex digits decode to that name, flag and count |
| TemplateFileManagement.EnableMediaTalliesAsWritten | oxtel/template_file_management.go:277-281 | as written, "%x" of the flag string hex-encodes each flag character, giving "YB" and twelve hex digits |
| TemplateFileManagement.EnableMediaTalliesAsString | oxtel/template_file_management.go:277-281 | the corrected command: "YB" followed by the six flag digits |
| TemplateFileManagement.EnquireMediaTallies | oxtel/template_file_management.go:286-329 | succeeds exactly when the first six characters are ParseBool flags, and returns them as the six media tally settings |
| TemplateFileManagement.MediaTalliesRoundTrip | oxtel/template_file_management.go:266-329 | the flags of the corrected enable command read back as the settings that were sent |
| TemplateFileManagement.MediaTalliesHexFinding | oxtel/template_file_management.go:270 | the command as written always has '3' after "YB", and its flags never read back: the decoder fails with a NumError |
| TemplateFileManagement.TalliesBadFirst | oxtel/template_file_management.go:292-296 | a media tally body starting with '3' is refused with a NumError |
| Templates.LoadImageAsString | oxtel/templates.go:20-32 | "R0" followed by the layer in hex and the template name; for a layer below 16 the digit is that layer and the rest is the name |
| Templates.PreloadImageAsString | oxtel/templates.go:77-89 | "R7" followed by the layer in hex and the template name; for a layer below 16 the digit is that layer and the rest is the name |
| Templates.EnquireLoadImageAsString | oxtel/templates.go:61-63 | "R0" followed by the layer, which reads back in hex |
| Templates.EnquirePreloadImageAsString | oxtel/templates.go:115-117 | "R7" followed by the layer, which reads back in hex |
| Templates.EraseStoreAsString | oxtel/templates.go:120-131 | "A" followed by the layer, which reads back in hex |
| Templates.EnquireImagePositionAsString | oxtel/templates.go:189-191 | "G" followed by the layer, which reads back in hex |
| Templates.DecodeLayerTemplate | oxtel/templates.go:40-55 | succeeds exactly when the first character is a hex digit, and returns it as the layer and the rest as the file name; an empty body is an index error, a non-hex first character a NumError (shared with the preload query at templates.go:94-109) |
| Templates.LayerTemplateRoundTrip | oxtel/templates.go:20-109 | for a layer below 16, the body of a load or preload command decodes to that layer and template name |
| Templates.LayerTemplateWideLayer | oxtel/templates.go:21 | for a layer of 16 or more the single-digit read-back keeps only the high hex digit, so the name read back is not the name sent |
| Templates.SetImagePositionAsString | oxtel/templates.go:137-149 | "G" followed by three space-separated words that read back in hex as the layer and the x and y offsets |
| Templates.EnquireImagePosition | oxtel/templates.go:154-183 | splits the body at spaces; succeeds exactly when the first word is an 8-bit hex layer and there are a second and third word that parse as 64-bit hex numbers, which become the offsets; a valid layer with no second word is an index error |
| Templates.ImagePositionRoundTrip | oxtel/templates.go:137-183 | the body of a set-position command decodes to that layer and those offsets |
| Utils.BoolToInt | oxtel/utils.go:5-11 | the result is 0 or 1, and 1 exactly when the input is true |
| Utils.IntToBool | oxtel/utils.go:13-25 | succeeds exactly on 0 and 1, true exactly on 1; any other value is the base error |
| Utils.IntToBoolInverse | oxtel/utils.go:5-25 | intToBool undoes boolToInt, and any value intToBool maps to a flag is the one boolToInt gives for it |
| Utils.BuildMediaTallies | oxtel/utils.go:27-66 | six characters, each '0' or '1', and the i-th is '1' exactly when the i-th media tally setting (five unused, then images) is set |
| Utils.MaskValueBits | oxtel/utils.go:237-253 | bit k of the OR-ed mask word is set exactly when channel k+1 is selected |
| Utils.MakeTwoChannelMask | oxtel/utils.go:152-171 | exactly channels 1 and 2 are selected |
| Utils.MakeFourChannelMask | oxtel/utils.go:173-192 | exactly channels 1 to 4 are selected |
| Utils.MakeEightChannelMask | oxtel/utils.go:194-213 | exactly channels 1 to 8 are selected |
| Utils.MakeSixteenChannelMask | oxtel/utils.go:215-234 | all sixteen channels are selected |
| Utils.BuildChannelMaskAsWritten | oxtel/utils.go:236-256 | as written, the word is an int16, so a mask without channel 16 renders like the corrected mask and a mask with channel 16 renders with a leading minus sign |
| Utils.MaskValueHigh | oxtel/utils.go:252-253 | channel 16 is selected exactly when the mask word is 0x8000 or more, which is where the int16 goes negative |
| Utils.BuildChannelMask | oxtel/utils.go:236-256 | the corrected mask text: four uppercase hex digits whose value has bit k set exactly when channel k+1 is selected |
| Utils.MaskBitsAll | oxtel/utils.go:237-253 | every channel's bit in the mask word agrees with its selection |
| Utils.TwoChannelMaskText | oxtel/utils.go:152-171 | the two-channel mask renders as "0003" |
| Utils.FourChannelMaskText | oxtel/utils.go:173-192 | the four-channel mask renders as "000F" |
| Utils.EightChannelMaskText | oxtel/oxtel_test.go:19-25 | the eight-channel mask renders as "00FF" |
| Utils.SixteenChannelMaskText | oxtel/utils.go:236-256 | as written the sixteen-channel mask renders as "-001"; corrected it renders as "FFFF" |
| Utils.MaskTextAsWritten | oxtel/utils.go:255 | the as-written text is the int16 value of the mask word formatted with "%04X" |
| Utils.BuildSessionLocks | oxtel/utils.go:260-291 | bit 0 is the mixer lock, bit 8+k the lock of layer k, bits 1 to 7 are clear, and the word fits in 16 bits |
| Utils.DecodeLocks | oxtel/locks.go:45-53 | the decoded mixer lock is bit 0 and layer k's lock is bit 8+k |
| Utils.DecodeSessionLocks | oxtel/utils.go:260-291 | decoding the word BuildSessionLocks builds gives back the same mixer and layer locks |
| Utils.DecodeLocksOtherBits | oxtel/locks.go:45-53 | two words agreeing on bits 0 and 8 to 15 decode to the same locks |
| Utils.OptionalChannelsCommand | oxtel/utils.go:78-148 | fails with the invalid-audio-profile error exactly when a present channel is above 15; otherwise holds each present channel, in order, as two hex digits |
| Utils.BuildAudioProgramCommand | oxtel/utils.go:68-150 | fails with the invalid-audio-profile error exactly when channel 1 or a present optional channel is above 15; otherwise "jAL" followed by SDI, program, Junger preset and channel 1 as two hex digits each, then the present optional channels in order |
| Utils.OptionalChannelsCommandAsWritten | oxtel/utils.go:88-148 | as written, channels 3 to 8 print the pointer rather than the channel: the errors are the same and the text is never shorter |
| Utils.BuildAudioProgramCommandAsWritten | oxtel/utils.go:68-150 | as written, fails exactly when the corrected command fails |
| Utils.AudioProgramPointerFinding | oxtel/utils.go:96 | when one of channels 3 to 8 is present and its address is 0x100 or more, the command as written differs from the corrected one |
| Utils.LongerAsWritten | oxtel/utils.go:96-146 | such a printed address makes the as-written channel text strictly longer than the corrected one |

## Left out

- Socket I/O. `net.Dial`, the `bufio.Reader` and `conn.Write` (oxtel/oxtel.go:38-53, 81, 469) are not modelled. The bytes read and written are sequences held by the `Oxtel` object, and the dial result is a parameter of `Connect`.
- Concurrency. The `rxLoop` goroutine, the `rxMessages` and `Unsolicited` channels, the non-blocking `select`, `context` cancellation, `sync.Once` and the `time.After` timeout are not modelled. The model keeps the sequential decisions:
  - which frame goes to the waiting caller and which is published as a tally;
  - a flag recording that the close ran once;
  - the frame the receive loop is stuck sending on `rxMessages`, and the frames that arrive behind it;
  - a flag recording that a send on a closed channel panicked the loop;
  - the frames that arrive before the timeout, given as a parameter: running out of them is the timeout.
- Client.Oxtel.RxLoop: the model has one receive loop. Each successful `Connect` starts another `rxLoop` goroutine (oxtel/oxtel.go:51), and only the first `Disconnect` cancels a context, so earlier loops may still be reading. Which loop reads which frame is scheduling, so it is not modelled.
- Client.Oxtel.RxLoop: a panic in the receive goroutine ends the Go process. The model records it in the `crashed` flag and runs no further frames through the loop, but the other operations can still be called on the object.
- AudioMixer.GainHead, AudioMixer.EnquireAudioGainAsString and AudioMixer.SetAudioGainAsString use the corrected mask of `Utils.BuildChannelMask` (oxtel/audio_mixer.go:207, 225, 232, 262). The source prints the `int16` mask, which differs when channel 16 is selected; that behaviour is in AudioMixer.EnquireAudioGainAsStringAsWritten and AudioMixer.SetAudioGainAsWritten (see Findings).
- The `break` inside the `select` of `rxLoop` (oxtel/oxtel.go:84-87) leaves the loop spinning after EOF. This is scheduling behaviour, so it is not modelled.
- `panic` inside `handleMessage` on a malformed tally field. It becomes a failed decode of that one frame (`Malformed`), not a process abort.
- Slicing and nil-pointer panics in the decoders become `Err(IndexOutOfRange)` or `Err(NilDereference)`.
- A Go method that returns a partial response together with an error is modelled as returning only the error.
- Pointer values. Where the source prints a pointer, its address is a parameter of the as-written member, because the model cannot know what the Go runtime would allocate.
- oxtel/health.go parses a temperature with `ParseFloat`. Floating point is not modelled.
- oxtel/enums.go, oxtel/types.go, oxtel/unsolicited_types.go and oxtel/errors.go only declare types and constants. They appear as datatypes and constants without properties of their own. The `Error()` text of the error types is not modelled.
- The `NewOxtel*` converters (oxtel/oxtel.go:502-596) are identity casts between integer types, so they are not modelled.
- `EnquireProductName`, `EnquireMediaPortName` and `GetMediaPortName` (oxtel/system_status.go:359-391) return the response body unchanged. They appear only as their command constants; the request/response step is `Client.Oxtel.SendCommandExpectResponse`.
- Commands that take no argument (`..._AsString` returning a fixed string) are constants. They carry no contract.
- A Go string is a byte sequence, and here one `char` stands for one byte. No UTF-8 decoding is modelled.
- AudioProfile.SetAudioProfile: follows the guard as written, which refuses only profiles above 16. Its doc comment (oxtel/audio_profile.go:9) says valid profiles are 0 to 15, but the enquiry's doc (line 33) says 1 to 16.
- SystemStatus.EnquireLatency: its own contract states only that an empty body is an index error. The full decoding is stated by `SystemStatus.LatencyDigits`.

## Findings

| source | as written | input that shows it | evidently intended | confidence | as-written member | corrected member |
|---|---|---|---|---|---|---|
| oxtel/utils.go:236-256 | the mask is OR-ed into an `int16` and printed with `%04X`; channel 16 sets the sign bit, so the value prints with a minus sign | all sixteen channels selected: the text is "-001" | the unsigned 16-bit mask in four hex digits, "FFFF" | high, not executed | Utils.BuildChannelMaskAsWritten, Utils.SixteenChannelMaskText, AudioMixer.EnquireAudioGainAsStringAsWritten | Utils.BuildChannelMask, AudioMixer.GainHead, AudioMixer.EnquireAudioGainAsString |
| oxtel/utils.go:96-146 | channels 3 to 8 pass the pointer itself to `%02x`, so the command carries an address | any present channel 3 whose pointer address is 0x100 or more | the channel value in two hex digits, as for channel 2 | high, not executed | Utils.BuildAudioProgramCommandAsWritten, Utils.AudioProgramPointerFinding | Utils.BuildAudioProgramCommand |
| oxtel/audio_mixer.go:216, 227 | the gain pointer is passed to `%d`, so the command carries an address | a gain between -100 and 30 whose pointer address is above 30, as every heap address is | the gain in decimal | high, not executed | AudioMixer.SetAudioGainAsWritten, AudioMixer.SetAudioGainPointerFinding | AudioMixer.SetAudioGain |
| oxtel/template_file_management.go:270, 280 | `%x` is applied to the flag string, so each '0' or '1' is sent as "30" or "31" | any media tally setting: the command is "YB" and twelve hex digits, and the enquiry cannot read it back | "YB" followed by the six flag digits | high, not executed | TemplateFileManagement.EnableMediaTalliesAsWritten, TemplateFileManagement.MediaTalliesHexFinding | TemplateFileManagement.EnableMediaTalliesAsString |
| oxtel/keyers.go:27, 40 | the rate pointer is passed to `%x`, so the command carries an address | a rate up to 999 whose pointer address is not the rate value | the rate in hex | high, not executed | Keyers.FadeKeyerAsStringAsWritten, Keyers.FadeKeyerAsWritten, Keyers.FadeKeyerPointerFinding | Keyers.FadeKeyerAsString |
