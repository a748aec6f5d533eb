# OGVCore: Ogg demultiplexing, header negotiation and seeking

This project is a Dafny model of the core of OGVCore, a C++ playback engine
for Ogg media (Theora video, Vorbis and Opus audio, Skeleton index). It
covers four parts of the engine, each with proofs about it:

- **`core.dfy` (module `OgvTypes`)** holds the public value types: `Point`,
  `Size`, `FrameLayout`, `FrameBuffer`, `AudioLayout` and `AudioBuffer`.
  It also holds the `AudioBuffer` constructor that copies a decoder's
  per-channel sample arrays, in two versions: as the header writes it, and
  as it is evidently meant to work (see Findings).
- **`bisector.dfy` (module `Bisection`)** models the `Bisector` helper, a
  `start`/`end`/`position`/`n` range that halves towards the left or the
  right.
  - The class `Bisector` updates its fields in place.
  - Each method is proved equal to a step function on the value `Range`.
  - Lemmas on `Range` prove the steps: each one halves the width, stays
    inside the old range and counts probes. A run of steps converges.
  - The 32-bit midpoint is modelled apart, and can overflow (see Findings).
- **`ogg.dfy` (module `Ogg`)** is the view of libogg that the decoder
  needs.
  - A page carries a serial number, a beginning-of-stream flag and its
    packets.
  - A logical stream is a serial number and a queue of packets.
  - The codec libraries' answer for a given packet is a field of that
    packet. Examples are "is this a Theora header, and which",
    "samples decoded" and the Opus head.
- **`decoder.dfy` (module `OgvDecoder`)** models `Decoder::impl`, which
  works in three phases: BEGIN, HEADERS and DECODING.
  - BEGIN claims one logical stream per codec from the beginning-of-stream
    pages, in the source's priority order: Theora, Vorbis, Opus, Skeleton.
  - HEADERS feeds the remaining header packets to each codec and builds the
    frame and audio layouts.
  - DECODING peeks at granule positions and decodes one frame or one audio
    block at a time. This includes the Opus pre-skip and end trimming.
  - `flush` drops all buffered data.
  - The index queries (segment length, duration, keypoint offset) answer
    through Skeleton.

  The decoder state is the record `DecoderState`, grouped by the source's
  own declaration blocks. Every operation is a function on that record,
  with lemmas about it. The class `Decoder` holds the same groups as
  fields, and each of its methods is proved to produce exactly the state
  its function describes.
- **`player.dfy` (module `OgvPlayer`)** models the part of `Player::impl`
  that the source implements.
  - Loading, and the stream callbacks `onStart`, `onRead` and `onDone`.
  - The audio clock: `startAudio`, `stopAudio` and `getAudioTime`.
  - `getDuration`.
  - Seeking: either straight to the keypoint the index names, or a
    bisection whose probe flushes the decoder and repositions the stream.

  `StreamFile` and `AudioFeeder` are interfaces in the source. Here they
  are small classes that record the calls the player makes on them.

Model boundaries:

- The build modelled has `OPUS` defined and `SKELETON` undefined.
- The codec libraries, the clock, the network and the platform delegates
  are not modelled. Their answers enter as parameters:
  - the `Env` record holds the stream descriptions, the granule-to-seconds
    conversions and the Skeleton index;
  - the fields of each `Packet`;
  - the `SyncResult` sequence standing for the bytes handed to
    `receiveInput`.

The model follows the code where it departs from its evident intent:

- `seek` does not check that the player is idle before it starts.
- `flush` never clears `frameReady` or `audioReady`.
- At the end of an Opus stream the sample count becomes the excess past
  the end granule position, not the count clipped to it. The queued buffer
  also carries the count from before the pre-skip was removed.
- A keypoint offset of 0 is treated like -1, as "no index" (`offset > 0`).
- The index queries answer -1 only while no Skeleton stream is claimed.
  They do not wait for header negotiation to complete.
- Seeking stops the audio whenever the decoder has audio and a feeder
  exists, whether or not the audio was playing.

## Model

| member | source | states |
|---|---|---|
| OgvTypes.NewAudioBufferAsWritten | include/OGVCore.h:103-112 | the constructor as written yields 2·n channel vectors: n empty ones, then n copies of the first `sampleCount` floats of `aSamples[n]` |
| OgvTypes.AsWrittenReadsPastLastChannel | include/OGVCore.h:108-111 | with exactly one sample array per channel, the as-written constructor's read of `aSamples[n]` is out of bounds |
| OgvTypes.AsWrittenDiffersFromIntended | include/OGVCore.h:106-111 | wherever the as-written constructor can be read, its result differs from the per-channel copy: channel 0 is empty instead of `sampleCount` floats |
| OgvTypes.NewAudioBuffer | include/OGVCore.h:97-112 | corrected constructor: one vector per channel, channel c is the first `sampleCount` floats of `aSamples[c]`, layout and count stored unchanged |
| Bisection.Half | src/OGVCore/Bisector.h:30 | C++ `/ 2` truncates toward zero: `2r <= x <= 2r+1` for non-negative x, `2r-1 <= x <= 2r` for negative x |
| Bisection.MidpointBetween | src/OGVCore/Bisector.h:30 | for `start <= end` the midpoint lies in `[start, end]` |
| Bisection.StartSettles | src/OGVCore/Bisector.h:42-44 | `start()` keeps the range, counts one probe and puts the position inside the range |
| Bisection.LeftHalvesDown | src/OGVCore/Bisector.h:46-49 | `left()` moves `end` to the old position; the new range lies inside the old one, its width is halved (rounded down) and the probe is counted |
| Bisection.RightHalvesUp | src/OGVCore/Bisector.h:51-54 | `right()` moves `start` to the old position; the new range lies inside the old one, its width is halved (rounded up) and the probe is counted |
| Bisection.StallAtWidthOne | src/OGVCore/Bisector.h:28-54 | once the width is at most one, both directions probe the same position again, the signal by which the caller knows it is done |
| Bisection.RunCountsProbes | src/OGVCore/Bisector.h:26-31 | `n` counts exactly the probes made, over any sequence of moves |
| Bisection.NarrowingRun | src/OGVCore/Bisector.h:46-54 | any run of left/right moves keeps the range inside the original range and bounds its width by k halvings |
| Bisection.Converges | src/OGVCore/Bisector.h:7-19 | after `start()` and k moves over a range of width at most 2^k, the next probe repeats the current position whichever way the caller turns |
| Bisection.Bisector.constructor | src/OGVCore/Bisector.h:35-40 | stores `start` and `end`, with position and probe count 0 |
| Bisection.Bisector.Iterate | src/OGVCore/Bisector.h:28-32 | counts a probe, sets the position to the midpoint, and hands `(start, end, position)` to the probe |
| Bisection.Bisector.Start | src/OGVCore/Bisector.h:42-44 | the first probe of the current range |
| Bisection.Bisector.Left | src/OGVCore/Bisector.h:46-49 | narrows to the left half and probes |
| Bisection.Bisector.Right | src/OGVCore/Bisector.h:51-54 | narrows to the right half and probes |
| Bisection.Midpoint32AgreesBelowOverflow | src/OGVCore/Bisector.h:30 | when `start + end` fits in 32 bits, the wrapped midpoint is the mathematical one |
| Bisection.Midpoint32LeavesRange | src/OGVCore/Bisector.h:30 | the 32-bit midpoint of 0x40000000 and 0x7FFFFFFE is negative, outside the range |
| Bisection.MidpointNoOverflow | src/OGVCore/Bisector.h:30 | `start + (end - start) / 2` equals the midpoint, stays in range, and never leaves 32 bits for 32-bit inputs |
| Ogg.PageIn | src/OGVCore/Decoder.cpp:435-436 | `ogg_stream_pagein`: a page of the stream's serial appends its packets, and any other page leaves the stream unchanged |
| Ogg.DropPacket | src/OGVCore/Decoder.cpp:455 | `ogg_stream_packetout` removes the head packet; an empty stream stays unchanged |
| OgvDecoder.PageInIf | src/OGVCore/Decoder.cpp:364-374 | a page reaches a codec's stream only if that codec claimed one; the serial and head packet are kept and packets only grow |
| OgvDecoder.RouteKeeps | src/OGVCore/Decoder.cpp:364-374 | `queue_page` keeps the invariant, every header count, the layouts and the Skeleton state (its branch is compiled out) |
| OgvDecoder.DrainSyncKeeps | src/OGVCore/Decoder.cpp:384-386 | pulling every page out of the sync layer changes only the sync queue and the packet queues of the claimed streams |
| OgvDecoder.ReceiveInputKeeps | src/OGVCore/Decoder.cpp:376-394 | empty input is ignored; otherwise `buffersReceived` is set and the data is queued. In DECODING the buffered pages before the first sync loss are routed, in order, to each claimed Theora, Vorbis and Opus stream of their serial, and what follows that loss, then the new data, stays buffered |
| OgvDecoder.RouteDelivers | src/OGVCore/Decoder.cpp:364-374 | routing a page appends it to a codec's stream exactly when that codec is claimed, and changes neither claims nor buffered data |
| OgvDecoder.DrainSyncProjects | src/OGVCore/Decoder.cpp:384-386 | draining the buffer leaves each codec's stream as the pages before the first sync loss fed into it one by one |
| OgvDecoder.DrainIntoAppends | src/OGVCore/Decoder.cpp:364-374 | feeding pages to a claimed stream appends the packets of the pages of its serial, in order; an unclaimed stream keeps its packets |
| OgvDecoder.DrainSyncDeliversTo | src/OGVCore/Decoder.cpp:384-386 | after draining, a claimed codec's packets are its old ones followed by those of its serial's pages before the first sync loss |
| OgvDecoder.DrainSyncLeaves | src/OGVCore/Decoder.cpp:384-386 | draining stops at the first sync loss and keeps what follows it buffered |
| OgvDecoder.ClassifyFirstAcceptor | src/OGVCore/Decoder.cpp:445-489 | the codec that claims a beginning-of-stream packet is the first, in priority order, that recognises it and has no stream yet; none claims it iff none accepts |
| OgvDecoder.BeginBosStep | src/OGVCore/Decoder.cpp:429-489 | a beginning-of-stream page is offered to Theora, then Vorbis, Opus and Skeleton, and a claim stops the offers to the codecs after it |
| OgvDecoder.BeginKeeps | src/OGVCore/Decoder.cpp:428-496 | BEGIN keeps the invariant; a page without the beginning-of-stream flag only moves to HEADERS; an empty beginning-of-stream page changes nothing |
| OgvDecoder.BeginClaimsByPriority | src/OGVCore/Decoder.cpp:445-489 | the claimed set grows by exactly the chosen codec, which gets header count 1 and the page's stream (and the pre-skip for Opus) |
| OgvDecoder.BeginGroupsKeep | src/OGVCore/Decoder.cpp:445-484 | each codec's begin step keeps that codec's state invariant |
| OgvDecoder.TheoraPassKeeps | src/OGVCore/Decoder.cpp:535-560 | a Theora header pass keeps the stream's serial number, whether it is claimed, and its invariant |
| OgvDecoder.HeadersToDecoding | src/OGVCore/Decoder.cpp:498-641 | HEADERS moves to DECODING iff no header is still pending (both directions); it then sets the frame layout iff Theora is claimed, and the Opus, else Vorbis, else no audio layout |
| OgvDecoder.VorbisHeaderCounting | src/OGVCore/Decoder.cpp:562-585 | the Vorbis header count grows by one exactly when a pending header packet is accepted, never passes 3, and the decoder exits iff the library refuses one |
| OgvDecoder.OpusCommentCountedUnseen | src/OGVCore/Decoder.cpp:587-599 | the Opus comment header is counted even when no packet is available, and no packet is consumed |
| OgvDecoder.KeyframeGranule | src/OGVCore/Decoder.cpp:670 | the keyframe granule is the position with its low `shift` bits cleared: a multiple of `2^shift` with `k <= gp < k + 2^shift` |
| OgvDecoder.MultipleHasNoRemainder | src/OGVCore/Decoder.cpp:670 | a multiple of `p` has remainder 0 (the arithmetic step of `KeyframeGranule`) |
| OgvDecoder.KeyframeOfUnknown | src/OGVCore/Decoder.cpp:668-674 | for the unknown granule position -1, the arithmetic shift yields `-2^shift` |
| OgvDecoder.VideoPeekKeeps | src/OGVCore/Decoder.cpp:647-685 | the video peek changes only the video buffering, `frameReady` and `needData`; it takes a known granule position, else advances the last one by one, else keeps -1 |
| OgvDecoder.AudioPeekKeeps | src/OGVCore/Decoder.cpp:687-720 | the audio peek changes only the audio buffering, `audioReady` and `needData`; more data is needed iff the active audio stream has no packet |
| OgvDecoder.AudioPeekSets | src/OGVCore/Decoder.cpp:687-720 | when the active audio stream (Opus before Vorbis) has a packet, the buffer and `audioReady` end set; a packet granule other than -1 becomes the position, timed at 48 kHz for Opus or by the Vorbis library; -1 keeps position and time; with no audio stream nothing changes |
| OgvDecoder.AudioPeekLocal | src/OGVCore/Decoder.cpp:687-720 | the audio peek depends only on the audio streams, the audio buffering and the audio output |
| OgvDecoder.DecodingAudioPeek | src/OGVCore/Decoder.cpp:644-721 | in a decoding pass an unready audio buffer ends as the audio peek leaves it, and a ready one is untouched |
| OgvDecoder.DecodingPeek | src/OGVCore/Decoder.cpp:644-721 | one decoding pass leaves codecs and layouts alone, readies video as the peek rules say, and needs data iff an unready active stream is empty |
| OgvDecoder.TimesOnlyFromUnknownGranule | src/OGVCore/Decoder.cpp:666-677 | the frame and keyframe times are recomputed only when the granule position is unknown, and are kept when it is known |
| OgvDecoder.DecodeFrameOutcome | src/OGVCore/Decoder.cpp:723-756 | decoding a frame consumes one packet; it succeeds iff libtheora answers 0 or DUPFRAME, a duplicate advances the time by one frame, success counts and queues the frame |
| OgvDecoder.OpusEndTrimKeepsExcess | src/OGVCore/Decoder.cpp:795-798 | the end trim sets the count to the samples past the end granule position, e.g. 60 for (0, 900, 960) |
| OgvDecoder.OpusTrimming | src/OGVCore/Decoder.cpp:783-832 | an Opus packet updates the granule position, pays the pre-skip first, queues audio iff samples remain after the pre-skip, and is consumed |
| OgvDecoder.VorbisDecoding | src/OGVCore/Decoder.cpp:835-859 | a Vorbis packet is always consumed; a block with the stream's channels, rate and synthesised count is queued iff synthesis succeeds, even for 0 samples, and a known granule position advances by that count; otherwise nothing is queued and the position is kept |
| OgvDecoder.DecodeAudioKeeps | src/OGVCore/Decoder.cpp:776-862 | decoding audio keeps the decoder invariant, also before DECODING when no audio stream is claimed |
| OgvDecoder.DiscardAudioDropsBoth | src/OGVCore/Decoder.cpp:872-885 | with both audio codecs claimed, discarding drops a packet from both streams and clears readiness |
| OgvDecoder.ProcessOutcome | src/OGVCore/Decoder.cpp:396-426 | `process` is a no-op before any input or when starved; a lost sync is skipped; it reports progress whenever it dispatches; phases never go back |
| OgvDecoder.NegotiationFrozenInDecoding | src/OGVCore/Decoder.cpp:396-426 | in DECODING, `process` changes no claim, header count, Skeleton state or layout |
| OgvDecoder.SkeletonStallPersists | src/OGVCore/Decoder.cpp:370-372 | with Skeleton pages not routed, a claimed Skeleton stream with no headers left stalls HEADERS forever, through `process`, `receiveInput` and `flush` |
| OgvDecoder.FlushKeeps | src/OGVCore/Decoder.cpp:887-927 | `flush` empties the sync and packet queues, resets both bufferings and sets `needData`; it keeps claims, headers, phase, outputs and ready flags, and is idempotent |
| OgvDecoder.EarliestIsMinimum | src/OGVCore/Decoder.cpp:961-982 | the scan's start time is one of the stream start times, and no later than any of them |
| OgvDecoder.LatestIsMaximum | src/OGVCore/Decoder.cpp:984-987 | the scan's end time is one of the stream end times, and no earlier than any of them |
| OgvDecoder.IndexFallbacks | src/OGVCore/Decoder.cpp:929-1016 | without a Skeleton stream the index answers -1; the keypoint query asks for the Theora stream alone when there is one, else for every claimed stream |
| OgvDecoder.DurationSpansStreams | src/OGVCore/Decoder.cpp:938-993 | the duration is latest end minus earliest start over the claimed streams, and is at least every pairwise span |
| OgvDecoder.Decoder.constructor | src/OGVCore/Decoder.cpp:263-282 | BEGIN, needing data, nothing received, no codec claimed, empty bufferings and outputs |
| OgvDecoder.Decoder.AvailabilityFollowsClaims | src/OGVCore/Decoder.cpp:316-344 | video or audio is reported only in DECODING, iff Theora, respectively Opus or Vorbis, was claimed; the frame layout is the Theora one |
| OgvDecoder.Decoder.QueuePage | src/OGVCore/Decoder.cpp:364-374 | the new state is the routed page |
| OgvDecoder.Decoder.DrainSyncPages | src/OGVCore/Decoder.cpp:384-386 | the loop leaves the drained state |
| OgvDecoder.Decoder.ReceiveInput | src/OGVCore/Decoder.cpp:376-394 | the new state is the received-input state, and the invariant is kept |
| OgvDecoder.Decoder.Process | src/OGVCore/Decoder.cpp:396-426 | state and result are those of the `process` function, and the invariant is kept |
| OgvDecoder.Decoder.ProcessBegin | src/OGVCore/Decoder.cpp:428-496 | state is the BEGIN step |
| OgvDecoder.Decoder.ProcessHeaders | src/OGVCore/Decoder.cpp:498-642 | state is the HEADERS step |
| OgvDecoder.Decoder.SkeletonHeader | src/OGVCore/Decoder.cpp:512-532 | only the Skeleton state changes, by one header pass |
| OgvDecoder.Decoder.TheoraHeader | src/OGVCore/Decoder.cpp:535-560 | only the Theora state changes, by one header pass |
| OgvDecoder.Decoder.VorbisHeader | src/OGVCore/Decoder.cpp:562-585 | reports refusal iff libvorbis refuses; otherwise only the Vorbis state changes, by one header pass |
| OgvDecoder.Decoder.OpusHeader | src/OGVCore/Decoder.cpp:587-599 | only the Opus state changes, by one header pass |
| OgvDecoder.Decoder.CompleteHeaders | src/OGVCore/Decoder.cpp:602-641 | state is the layout-building finish of HEADERS |
| OgvDecoder.Decoder.ProcessDecoding | src/OGVCore/Decoder.cpp:644-721 | state is the DECODING peek |
| OgvDecoder.Decoder.PeekVideo | src/OGVCore/Decoder.cpp:647-685 | state is the video peek; audio state untouched |
| OgvDecoder.Decoder.PeekAudio | src/OGVCore/Decoder.cpp:687-720 | state is the audio peek |
| OgvDecoder.Decoder.DecodeFrame | src/OGVCore/Decoder.cpp:723-756 | state and result are the frame-decoding function's, and the invariant is kept |
| OgvDecoder.Decoder.DecodeTheoraPacket | src/OGVCore/Decoder.cpp:729-755 | decoding one Theora packet gives the frame-step state and result |
| OgvDecoder.Decoder.VideoWrite | src/OGVCore/Decoder.cpp:346-359 | queues a frame with the layout, time and keyframe time of the video buffering; nothing else changes |
| OgvDecoder.Decoder.DequeueFrame | src/OGVCore/Decoder.cpp:758-764 | returns the queued frame and empties the queue |
| OgvDecoder.Decoder.DiscardFrame | src/OGVCore/Decoder.cpp:766-774 | state is the discard-frame state |
| OgvDecoder.Decoder.DecodeAudio | src/OGVCore/Decoder.cpp:776-862 | state and result are the audio-decoding function's, and the invariant is kept |
| OgvDecoder.Decoder.DecodeOpusAudio | src/OGVCore/Decoder.cpp:783-832 | the Opus branch gives the Opus audio step |
| OgvDecoder.Decoder.DecodeVorbisAudio | src/OGVCore/Decoder.cpp:835-859 | the Vorbis branch gives the Vorbis audio step |
| OgvDecoder.Decoder.DecodeOpusPacket | src/OGVCore/Decoder.cpp:786-830 | one Opus packet: granule bookkeeping, end trim and pre-skip |
| OgvDecoder.Decoder.DecodeVorbisPacket | src/OGVCore/Decoder.cpp:837-857 | one Vorbis packet: synthesis and queueing of the PCM block |
| OgvDecoder.Decoder.DequeueAudio | src/OGVCore/Decoder.cpp:864-870 | returns the queued audio and empties the queue |
| OgvDecoder.Decoder.DiscardAudio | src/OGVCore/Decoder.cpp:872-885 | state is the discard-audio state |
| OgvDecoder.Decoder.FlushBuffers | src/OGVCore/Decoder.cpp:887-927 | state is the flushed-buffers state |
| OgvDecoder.Decoder.DrainTheora | src/OGVCore/Decoder.cpp:895-899 | the loop empties the Theora packet queue of a claimed stream |
| OgvDecoder.Decoder.DrainVorbis | src/OGVCore/Decoder.cpp:901-905 | the loop empties the Vorbis packet queue of a claimed stream |
| OgvDecoder.Decoder.DrainOpus | src/OGVCore/Decoder.cpp:908-912 | the loop empties the Opus packet queue of a claimed stream |
| OgvDecoder.Decoder.Flush | src/OGVCore/Decoder.cpp:239-244 | state is the flush state, and the invariant is kept |
| OgvDecoder.Decoder.GetSegmentLength | src/OGVCore/Decoder.cpp:929-936 | -1 without Skeleton, otherwise the index's segment length |
| OgvDecoder.Decoder.GetKeypointOffset | src/OGVCore/Decoder.cpp:995-1016 | -1 without Skeleton; with Theora, the keypoint of the Theora stream alone |
| OgvDecoder.Decoder.GetDuration | src/OGVCore/Decoder.cpp:938-993 | the duration function of the state: -1 without Skeleton, 0 with no media stream |
| OgvDecoder.Decoder.SampleExtremes | src/OGVCore/Decoder.cpp:961-988 | the loop computes the source's running extremes of first- and last-sample times; a -1 time replaces the running value and so resets it |
| OgvPlayer.TruncateToLong | src/OGVCore/Player.cpp:322 | the `double` seconds passed as a `long` are truncated toward zero |
| OgvPlayer.StopThenStartResumes | src/OGVCore/Player.cpp:148-169 | stopping the clock, then restarting it with a negative offset, resumes the clock at the time it stopped |
| OgvPlayer.FirstProbeProceeds | src/OGVCore/Player.cpp:283-303 | the first bisection probe repeats `lastSeekPosition` -1 only for byte lengths -1 and -2, and lies inside a non-empty file |
| OgvPlayer.FlushKeepsIndex | src/OGVCore/Player.cpp:316-322 | flushing before the index query leaves the keypoint answer and the audio layout as they were; flushing twice is flushing once |
| OgvPlayer.StreamFile.constructor | include/OGVCore.h:182-203 | a stream of a given total length with no calls recorded |
| OgvPlayer.StreamFile.Seek | include/OGVCore.h:196 | records one seek to the position |
| OgvPlayer.StreamFile.ReadBytes | include/OGVCore.h:194 | records one read request |
| OgvPlayer.AudioFeeder.constructor | include/OGVCore.h:163-176 | a stopped, unmuted feeder at a playback position |
| OgvPlayer.AudioFeeder.Start | include/OGVCore.h:171 | the feeder runs; position and muting kept |
| OgvPlayer.AudioFeeder.Stop | include/OGVCore.h:172 | the feeder stops; position and muting kept |
| OgvPlayer.AudioFeeder.Mute | src/OGVCore/Player.cpp:143-145 | the feeder is muted; running and position kept |
| OgvPlayer.Player.constructor | src/OGVCore/Player.cpp:231-281 | the field defaults: initial state, paused, not started, no stream, no seek in progress, last seek position 0 |
| OgvPlayer.Player.Load | src/OGVCore/Player.cpp:39-48 | a second load changes nothing; a first one opens the stream and clears `started` |
| OgvPlayer.Player.GetDuration | src/OGVCore/Player.cpp:55-66 | NaN iff no codec or no metadata; otherwise the duration, with infinity for NaN |
| OgvPlayer.Player.InitAudioFeeder | src/OGVCore/Player.cpp:140-146 | installs the feeder and mutes it iff the player is muted |
| OgvPlayer.Player.StartAudio | src/OGVCore/Player.cpp:148-155 | starts the feeder and anchors the clock: a non-negative offset becomes the clock's time, a negative one keeps the old offset |
| OgvPlayer.Player.StopAudio | src/OGVCore/Player.cpp:157-160 | stores the clock's current time as the offset and stops the feeder |
| OgvPlayer.Player.OnStart | src/OGVCore/Player.cpp:185-196 | takes the byte length from the stream and the duration from the header when one is present |
| OgvPlayer.Player.OnRead | src/OGVCore/Player.cpp:201-208 | the decoder receives the data, and its invariant is kept |
| OgvPlayer.Player.OnDone | src/OGVCore/Player.cpp:210-223 | the stream is kept while seeking and released otherwise |
| OgvPlayer.Player.Probe | src/OGVCore/Player.cpp:289-300 | the probe proceeds iff the position differs from the last one; it then records it, flushes the decoder and seeks and reads the stream |
| OgvPlayer.Player.StartBisection | src/OGVCore/Player.cpp:283-303 | records the target, builds a bisector over `[0, byteLength-1]`, makes its first probe and applies that probe's effects |
| OgvPlayer.Player.ResetSeekState | src/OGVCore/Player.cpp:311-315 | state SEEKING, the new target, unknown keypoint, last position -1, frame not skipped |
| OgvPlayer.Player.FlushCodec | src/OGVCore/Player.cpp:316 | the decoder is flushed; whether it has audio is kept |
| OgvPlayer.Player.BeginSeek | src/OGVCore/Player.cpp:311-320 | resets the seek state and flushes the decoder; stops the audio clock iff the decoder has audio and a feeder exists, keeping the feeder's position and muting, and otherwise leaves the feeder unchanged |
| OgvPlayer.Player.SeekFromOffset | src/OGVCore/Player.cpp:322-340 | a positive offset seeks the stream there linearly; otherwise bisection starts from the seek target |
| OgvPlayer.Player.Seek | src/OGVCore/Player.cpp:305-341 | a stream of length 0 is refused with nothing changed; otherwise the whole seek, branching on the keypoint offset the decoder's index gives for the truncated time; the feeder is stopped with position and muting kept when the decoder has audio, and is left unchanged otherwise |

## Left out

- Sample and pixel memory is not modelled: the planes written by `video_write`, the PCM data of Vorbis and Opus blocks, and the Opus deinterleaving. Queued audio carries its layout and sample count only.
- Floating point is modelled as `real`: frame rate, aspect ratio, times and `atof`. The granule-to-seconds conversions of libtheora and libvorbis are opaque functions in `Env`.
- libogg, libtheora, libvorbis, libopus and libskeleton are replaced by their answers, which are fields of `Packet` and `Env`. `ogg_sync` errors other than a lost sync do not occur in the model.
- The diagnostic `printf` and `cout` output is not modelled.
- `exit(1)` on a refused Vorbis header is modelled as the absorbing flag `exited`. Only `OgvDecoder.Decoder.Process`, and the lemmas about processing, require the flag to be clear; the other operations do not consult it.
- The exits on a gap error from `ogg_stream_packetpeek` or `ogg_stream_packetout` (src/OGVCore/Decoder.cpp:516, 541, 567, 592) are not reached: the model's packet queues never report a gap.
- OgvDecoder.KeyframeGranule: the inverted guard shifts only negative granule positions, and `<<` of a negative value (src/OGVCore/Decoder.cpp:670) is undefined before C++20. The model takes the arithmetic result.
- OgvDecoder.Decoder.DecodeFrame: requires DECODING. Before it the Theora decoder context is null (it is assigned only at src/OGVCore/Decoder.cpp:610), and an unclaimed Theora stream state is uninitialised.
- OgvDecoder.Decoder.DecodeAudio: requires DECODING or no claimed audio stream. Before DECODING a claimed Opus stream dereferences the null `audioLayout` (src/OGVCore/Decoder.cpp:820, 824), and a claimed Vorbis stream synthesises into a block that is initialised only at src/OGVCore/Decoder.cpp:631.
- OgvPlayer.Player.Load: `getSourceURL` returns NULL into a `std::string` (src/OGVCore/Player.cpp:78-80), which is undefined, so as written `load` never opens a stream. The model abstracts the URL and opens the given stream.
- The `SKELETON` build option is modelled as off, so Skeleton pages are never routed (see `OgvDecoder.SkeletonStallPersists`).
- OgvDecoder.DecodingPeek: reproduces the inverted guard of the source. It computes times only when the granule position is unknown, and then from -1.
- OgvDecoder.OpusTrimming: reproduces the source's end trim, which keeps the excess past the end granule position. The queued block also carries the count from before the pre-skip was removed.
- OgvPlayer.Player.Seek: the `double` target is passed as milliseconds to `getKeypointOffset` after truncation to `long`. The range of `long` is not modelled.
- OgvPlayer.Player.StartBisection: `byteLength - 1` is passed from `long` into the `int` bisector without modelling the truncation.
- `continueSeekedPlayback`, `doProcessLinearSeeking` and `doProcessBisectionSeek` are declared but have no definition in the source, so they are not modelled.
- The player's empty stubs are not modelled: `process`, `doProcessing`, `pingProcessing`, `startProcessingVideo`, the getters that return NaN, and `getSourceURL`.
- The platform delegates, `Timer`, `FrameSink`, `processFrame`, `drawFrame` and `doFrameComplete` are not modelled: they only forward to platform code.
- The `X-Content-Duration` response header reaches `OnStart` already parsed, as an optional value.
- The source never creates the player's decoder. The model hands one to the constructor.
- `lastFrameSkipped` is never initialised in the source. The model takes its initial value as a constructor parameter.
- `AudioFeeder::mute` is called by the player but is missing from the interface. The model gives the feeder a `Mute` method.
- These interface calls are not used by the modelled core: `bufferData`, `getBufferedTime`, `abort`, `bytesBuffered`, `bytesRead` and `isSeekable`.
- Decoding is modelled with video and audio processing both enabled.

## Findings

| source | as written | input that shows it | evidently intended | confidence | as-written member | corrected member |
|---|---|---|---|---|---|---|
| include/OGVCore.h:106-111 | `samples` is pre-sized to n empty vectors, then n copies of `aSamples[n]` are pushed | channelCount 2 with two sample arrays: `aSamples[2]` is read past the end, and the buffer holds 4 vectors, the first empty | n vectors, vector i a copy of `aSamples[i]` | not executed; high | OgvTypes.NewAudioBufferAsWritten | OgvTypes.NewAudioBuffer |
| src/OGVCore/Bisector.h:30 | `(start_ + end_) / 2` in 32-bit `int` | start 0x40000000, end 0x7FFFFFFE: the sum overflows and the probe position is negative | `start_ + (end_ - start_) / 2`, which stays in `[start_, end_]` | not executed; medium (signed overflow is undefined behaviour; wrap-around assumed) | Bisection.Midpoint32LeavesRange | Bisection.MidpointNoOverflow |
