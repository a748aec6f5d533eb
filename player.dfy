/**
 * The player's seek entry and audio-clock bookkeeping (`Player::impl`).
 *
 * The player owns a byte stream, a decoder and an audio feeder. `Seek`
 * refuses a stream of unknown length; otherwise it resets the seek state,
 * flushes the decoder, stops the audio clock and either jumps to the
 * keypoint the decoder's index names or starts a bisection over the byte
 * range. The bisection's probe (the callback the Bisector is built with)
 * repositions the stream unless the midpoint repeats the last one.
 *
 * The stream and the audio feeder are interfaces in the source; here they
 * are small classes recording the calls the player makes on them.
 */
module OgvPlayer {
  import opened OgvTypes
  import opened Ogg
  import opened OgvDecoder
  import opened Bisection

  /** A `double` holding a time in seconds, with its two infinities and NaN. */
  datatype Seconds = Finite(value: real) | PositiveInfinity | NegativeInfinity | NotANumber

  datatype PlaybackState = Initial | SeekingEnd | Loaded | Playing | Paused | Seeking | Ended

  datatype SeekState = NotSeeking | BisectToTarget | BisectToKeypoint | LinearToTarget

  /** Conversion of a `double` to `long`: truncation toward zero. */
  function TruncateToLong(t: real): (r: int)
    ensures 0.0 <= t ==> r as real <= t < r as real + 1.0
    ensures t < 0.0 ==> r as real - 1.0 < t <= r as real
  {
    if t >= 0.0 then t.Floor else -((-t).Floor)
  }

  /**
   * A stream over a fixed byte length; `seeks` lists the positions it was
   * asked to move to and `readRequests` counts the `readBytes` calls.
   */
  class StreamFile {
    const bytesTotal: int
    var seeks: seq<int>
    var readRequests: nat

    constructor (bytesTotal: int)
      ensures this.bytesTotal == bytesTotal && seeks == [] && readRequests == 0
    {
      this.bytesTotal := bytesTotal;
      seeks := [];
      readRequests := 0;
    }

    method Seek(position: int)
      modifies this
      ensures seeks == old(seeks) + [position] && readRequests == old(readRequests)
    {
      seeks := seeks + [position];
    }

    method ReadBytes()
      modifies this
      ensures seeks == old(seeks) && readRequests == old(readRequests) + 1
    {
      readRequests := readRequests + 1;
    }
  }

  /**
   * An audio output: whether it is playing, whether it is muted, and the
   * playback position it reports, which the output's own clock advances.
   */
  class AudioFeeder {
    var running: bool
    var muted: bool
    var playbackPosition: real

    constructor (playbackPosition: real)
      ensures !running && !muted && this.playbackPosition == playbackPosition
    {
      running := false;
      muted := false;
      this.playbackPosition := playbackPosition;
    }

    method Start()
      modifies this
      ensures running && muted == old(muted) && playbackPosition == old(playbackPosition)
    {
      running := true;
    }

    method Stop()
      modifies this
      ensures !running && muted == old(muted) && playbackPosition == old(playbackPosition)
    {
      running := false;
    }

    method Mute()
      modifies this
      ensures muted && running == old(running) && playbackPosition == old(playbackPosition)
    {
      muted := true;
    }
  }

  /** The playback flags. */
  datatype PlaybackFields = PlaybackFields(
    state: PlaybackState, started: bool, paused: bool, ended: bool, loadedMetadata: bool)

  /** The audio clock: muting and the anchor of `getAudioTime`. */
  datatype ClockFields = ClockFields(muted: bool, initialAudioPosition: real, initialAudioOffset: real)

  /** What the stream told the player about the media. */
  datatype MediaFields = MediaFields(byteLength: int, duration: Seconds)

  /** The seek bookkeeping. */
  datatype SeekFields = SeekFields(
    seekState: SeekState,
    seekTargetTime: real,
    seekTargetKeypoint: real,
    bisectTargetTime: real,
    lastSeekPosition: int,
    lastFrameSkipped: bool)

  /** `getAudioTime` over the feeder's position and the clock's anchor. */
  function ClockTime(position: real, c: ClockFields): real
  {
    (position - c.initialAudioPosition) + c.initialAudioOffset
  }

  /**
   * Stopping the clock at one feeder position and restarting it with a
   * negative offset at another makes the clock continue from the time at
   * which it stopped, however far the feeder's position moved meanwhile.
   */
  lemma {:induction false} StopThenStartResumes(c: ClockFields, stopAt: real, startAt: real, later: real)
    ensures var stopped := c.(initialAudioOffset := ClockTime(stopAt, c));
      var restarted := stopped.(initialAudioPosition := startAt);
      ClockTime(startAt + later, restarted) == ClockTime(stopAt, c) + later
  {
  }

  /**
   * The first probe of a bisection over `[0, byteLength - 1]`: its midpoint
   * is -1, the value `Seek` leaves in `lastSeekPosition`, only for the byte
   * lengths -1 and -2. Any length a stream reports lets it proceed, and the
   * midpoint lies within the file when the file is not empty.
   */
  lemma FirstProbeProceeds(byteLength: int)
    ensures Midpoint(0, byteLength - 1) == -1 <==> byteLength == -1 || byteLength == -2
    ensures byteLength >= 1 ==> 0 <= Midpoint(0, byteLength - 1) < byteLength
  {
  }

  /**
   * Flushing the decoder leaves what it answers to the player's queries:
   * whether it has audio, and the keypoint offset of any time.
   */
  lemma {:induction false} FlushKeepsIndex(e: Env, s: DecoderState, timeMs: int)
    requires Inv(e, s)
    ensures KeypointOffset(e, FlushSpec(s), timeMs) == KeypointOffset(e, s, timeMs)
    ensures FlushSpec(s).audio.layout == s.audio.layout
    ensures FlushSpec(FlushSpec(s)) == FlushSpec(s)
  {
    FlushKeeps(e, s);
  }

  class Player {
    var stream: StreamFile?
    var byteLength: int
    var duration: Seconds

    var audioFeeder: AudioFeeder?
    var muted: bool
    var initialAudioPosition: real
    var initialAudioOffset: real

    var state: PlaybackState
    var codec: Decoder?
    var started: bool
    var paused: bool
    var ended: bool
    var loadedMetadata: bool

    var seekState: SeekState
    var seekTargetTime: real
    var seekTargetKeypoint: real
    var bisectTargetTime: real
    var lastSeekPosition: int
    var lastFrameSkipped: bool
    var seekBisector: Bisector?

    function Playback(): PlaybackFields
      reads this
    {
      PlaybackFields(state, started, paused, ended, loadedMetadata)
    }

    function Clock(): ClockFields
      reads this
    {
      ClockFields(muted, initialAudioPosition, initialAudioOffset)
    }

    function Media(): MediaFields
      reads this
    {
      MediaFields(byteLength, duration)
    }

    function SeekBook(): SeekFields
      reads this
    {
      SeekFields(seekState, seekTargetTime, seekTargetKeypoint, bisectTargetTime,
                 lastSeekPosition, lastFrameSkipped)
    }

    /**
     * `impl(delegate)`: no stream, no audio feeder, INITIAL, paused, not
     * seeking, the clock anchored at 0. The byte length, duration and
     * `lastFrameSkipped` are left as they happen to be. The source never
     * creates the decoder (its processing loop is unwritten); it is given.
     */
    constructor (codec: Decoder?, byteLength: int, duration: Seconds, lastFrameSkipped: bool)
      ensures this.codec == codec && stream == null && audioFeeder == null && seekBisector == null
      ensures Playback() == PlaybackFields(Initial, false, true, false, false)
      ensures Clock() == ClockFields(false, 0.0, 0.0)
      ensures Media() == MediaFields(byteLength, duration)
      ensures SeekBook() == SeekFields(NotSeeking, 0.0, 0.0, 0.0, 0, lastFrameSkipped)
    {
      this.codec := codec;
      stream := null;
      this.byteLength := byteLength;
      this.duration := duration;
      audioFeeder := null;
      muted := false;
      initialAudioPosition := 0.0;
      initialAudioOffset := 0.0;
      state := Initial;
      started := false;
      paused := true;
      ended := false;
      loadedMetadata := false;
      seekState := NotSeeking;
      seekTargetTime := 0.0;
      seekTargetKeypoint := 0.0;
      bisectTargetTime := 0.0;
      lastSeekPosition := 0;
      this.lastFrameSkipped := lastFrameSkipped;
      seekBisector := null;
    }

    /**
     * `load`: nothing when a stream is already open; otherwise clear
     * `started` and take the stream the delegate opens.
     */
    method Load(file: StreamFile)
      modifies this
      ensures old(stream) != null ==> stream == old(stream) && Playback() == old(Playback())
      ensures old(stream) == null ==> stream == file && Playback() == old(Playback()).(started := false)
      ensures codec == old(codec) && audioFeeder == old(audioFeeder) && seekBisector == old(seekBisector)
      ensures Clock() == old(Clock()) && Media() == old(Media()) && SeekBook() == old(SeekBook())
    {
      if stream != null {
        return;
      }
      started := false;
      stream := file;
    }

    /**
     * `getDuration`: unknown (NaN) until a decoder exists and the metadata
     * is loaded; then the stored duration, with an unknown one reported as
     * infinite.
     */
    function GetDuration(): (r: Seconds)
      reads this
      ensures r.NotANumber? <==> codec == null || !loadedMetadata
      ensures codec != null && loadedMetadata && !duration.NotANumber? ==> r == duration
      ensures codec != null && loadedMetadata && duration.NotANumber? ==> r == PositiveInfinity
    {
      if codec != null && loadedMetadata then
        if !duration.NotANumber? then duration else PositiveInfinity
      else
        NotANumber
    }

    /** `initAudioFeeder`: take the feeder the delegate creates; mute it if the player is muted. */
    method InitAudioFeeder(feeder: AudioFeeder)
      modifies this, feeder
      ensures audioFeeder == feeder
      ensures feeder.muted == (old(feeder.muted) || muted)
      ensures feeder.running == old(feeder.running) && feeder.playbackPosition == old(feeder.playbackPosition)
      ensures stream == old(stream) && codec == old(codec) && seekBisector == old(seekBisector)
      ensures Playback() == old(Playback()) && Clock() == old(Clock())
      ensures Media() == old(Media()) && SeekBook() == old(SeekBook())
    {
      audioFeeder := feeder;
      if muted {
        feeder.Mute();
      }
    }

    /** `getAudioTime`: seconds since the start of the file, by the audio clock. */
    function AudioTime(): real
      requires audioFeeder != null
      reads this, audioFeeder
    {
      ClockTime(audioFeeder.playbackPosition, Clock())
    }

    /**
     * `startAudio`: start the feeder and anchor the clock at its current
     * position. A non-negative offset becomes the clock's time; a negative
     * one keeps the offset the clock had, so the clock resumes where
     * `StopAudio` left it.
     */
    method StartAudio(offset: real)
      requires audioFeeder != null
      modifies this, audioFeeder
      ensures audioFeeder == old(audioFeeder) && audioFeeder.running
      ensures audioFeeder.playbackPosition == old(audioFeeder.playbackPosition)
      ensures audioFeeder.muted == old(audioFeeder.muted)
      ensures initialAudioPosition == audioFeeder.playbackPosition
      ensures offset >= 0.0 ==> initialAudioOffset == offset && AudioTime() == offset
      ensures offset < 0.0 ==> initialAudioOffset == old(initialAudioOffset) && AudioTime() == old(initialAudioOffset)
      ensures muted == old(muted)
      ensures stream == old(stream) && codec == old(codec) && seekBisector == old(seekBisector)
      ensures Playback() == old(Playback()) && Media() == old(Media()) && SeekBook() == old(SeekBook())
    {
      audioFeeder.Start();
      initialAudioPosition := audioFeeder.playbackPosition;
      if offset >= 0.0 {
        initialAudioOffset := offset;
      }
    }

    /** `stopAudio`: store the clock's time as its offset, then stop the feeder. */
    method StopAudio()
      requires audioFeeder != null
      modifies this, audioFeeder
      ensures audioFeeder == old(audioFeeder) && !audioFeeder.running
      ensures audioFeeder.playbackPosition == old(audioFeeder.playbackPosition)
      ensures audioFeeder.muted == old(audioFeeder.muted)
      ensures Clock() == old(Clock()).(initialAudioOffset := old(AudioTime()))
      ensures stream == old(stream) && codec == old(codec) && seekBisector == old(seekBisector)
      ensures Playback() == old(Playback()) && Media() == old(Media()) && SeekBook() == old(SeekBook())
    {
      initialAudioOffset := AudioTime();
      audioFeeder.Stop();
    }

    /** The stream delegate's `onStart`: record the length and any duration header. */
    method OnStart(durationHeader: Option<Seconds>)
      requires stream != null
      modifies this
      ensures stream == old(stream) && codec == old(codec) && audioFeeder == old(audioFeeder)
      ensures byteLength == stream.bytesTotal
      ensures durationHeader.Some? ==> duration == durationHeader.value
      ensures durationHeader.None? ==> duration == old(duration)
      ensures seekBisector == old(seekBisector)
      ensures Playback() == old(Playback()) && Clock() == old(Clock()) && SeekBook() == old(SeekBook())
    {
      byteLength := stream.bytesTotal;
      if durationHeader.Some? {
        duration := durationHeader.value;
      }
    }

    /** The stream delegate's `onRead`: hand the bytes to the decoder. */
    method OnRead(size: int, data: seq<SyncResult>)
      requires codec != null && codec.Valid()
      modifies codec
      ensures codec.Snapshot() == ReceiveInputSpec(old(codec.Snapshot()), size, data)
      ensures codec.Valid()
    {
      codec.ReceiveInput(size, data);
    }

    /** The stream delegate's `onDone`: keep the stream while seeking, else drop it. */
    method OnDone()
      modifies this
      ensures state == Seeking || state == SeekingEnd ==> stream == old(stream)
      ensures state != Seeking && state != SeekingEnd ==> stream == null
      ensures codec == old(codec) && audioFeeder == old(audioFeeder) && seekBisector == old(seekBisector)
      ensures Playback() == old(Playback()) && Clock() == old(Clock())
      ensures Media() == old(Media()) && SeekBook() == old(SeekBook())
    {
      if state != Seeking && state != SeekingEnd {
        stream := null;
      }
    }

    /**
     * The probe the bisection is built with: a midpoint equal to the last
     * one probed is refused and changes nothing; any other is recorded, the
     * decoder is flushed and the stream moves there and reads.
     */
    method Probe(start: int, end: int, position: int) returns (proceeded: bool)
      requires codec != null && codec.Valid() && stream != null
      modifies this, codec, stream
      ensures proceeded <==> position != old(lastSeekPosition)
      ensures stream == old(stream) && codec == old(codec) && audioFeeder == old(audioFeeder)
      ensures seekBisector == old(seekBisector)
      ensures codec.Valid()
      ensures Playback() == old(Playback()) && Clock() == old(Clock()) && Media() == old(Media())
      ensures !proceeded ==>
        SeekBook() == old(SeekBook()) && unchanged(codec) && unchanged(stream)
      ensures proceeded ==>
        && SeekBook() == old(SeekBook()).(lastSeekPosition := position, lastFrameSkipped := false)
        && codec.Snapshot() == FlushSpec(old(codec.Snapshot()))
        && stream.seeks == old(stream.seeks) + [position]
        && stream.readRequests == old(stream.readRequests) + 1
    {
      if position == lastSeekPosition {
        return false;
      }
      lastSeekPosition := position;
      lastFrameSkipped := false;
      codec.Flush();
      stream.Seek(position);
      stream.ReadBytes();
      return true;
    }

    /**
     * `startBisection`: a fresh Bisector over `[0, byteLength - 1]`, started
     * at once, its first midpoint handed to the probe.
     */
    method StartBisection(targetTime: real)
      requires codec != null && codec.Valid() && stream != null
      modifies this, codec, stream
      ensures stream == old(stream) && codec == old(codec) && audioFeeder == old(audioFeeder)
      ensures codec.Valid()
      ensures seekBisector != null && fresh(seekBisector)
      ensures seekBisector.State() == StartStep(Range(0, byteLength - 1, 0, 0))
      ensures Playback() == old(Playback()) && Clock() == old(Clock()) && Media() == old(Media())
      ensures var p := seekBisector.position;
        && (p == old(lastSeekPosition) ==>
              && SeekBook() == old(SeekBook()).(bisectTargetTime := targetTime)
              && unchanged(codec) && unchanged(stream))
        && (p != old(lastSeekPosition) ==>
              && SeekBook() == old(SeekBook()).(bisectTargetTime := targetTime,
                                               lastSeekPosition := p, lastFrameSkipped := false)
              && codec.Snapshot() == FlushSpec(old(codec.Snapshot()))
              && stream.seeks == old(stream.seeks) + [p]
              && stream.readRequests == old(stream.readRequests) + 1)
    {
      bisectTargetTime := targetTime;
      var b := new Bisector(0, byteLength - 1);
      seekBisector := b;
      var probeStart, probeEnd, probePosition := b.Start();
      var _ := Probe(probeStart, probeEnd, probePosition);
    }

    /** The fields `seek` resets before it flushes the decoder. */
    method ResetSeekState(toTime: real)
      modifies this
      ensures stream == old(stream) && codec == old(codec) && audioFeeder == old(audioFeeder)
      ensures seekBisector == old(seekBisector)
      ensures Media() == old(Media()) && Clock() == old(Clock())
      ensures Playback() == old(Playback()).(state := Seeking)
      ensures SeekBook() == old(SeekBook()).(seekTargetTime := toTime, seekTargetKeypoint := -1.0,
                                             lastFrameSkipped := false, lastSeekPosition := -1)
    {
      state := Seeking;
      seekTargetTime := toTime;
      seekTargetKeypoint := -1.0;
      lastFrameSkipped := false;
      lastSeekPosition := -1;
    }

    /** `codec->flush()`, seen from the player: only the decoder changes. */
    method FlushCodec()
      requires codec != null && codec.Valid()
      modifies codec
      ensures codec.Valid()
      ensures codec.Snapshot() == FlushSpec(old(codec.Snapshot()))
      ensures codec.HasAudio() == old(codec.HasAudio())
    {
      FlushKeeps(codec.env, codec.Snapshot());
      codec.Flush();
    }

    /**
     * The reset `seek` performs on a seekable stream: SEEKING toward the
     * target time, no target keypoint, no frame skipped, no position probed
     * (-1), the decoder flushed, and the audio clock stopped when the
     * decoder has audio and a feeder exists.
     */
    method BeginSeek(toTime: real)
      requires codec != null && codec.Valid() && stream != null
      modifies this, codec, audioFeeder
      ensures stream == old(stream) && codec == old(codec) && audioFeeder == old(audioFeeder)
      ensures seekBisector == old(seekBisector)
      ensures codec.Valid()
      ensures codec.Snapshot() == FlushSpec(old(codec.Snapshot()))
      ensures Media() == old(Media())
      ensures Playback() == old(Playback()).(state := Seeking)
      ensures SeekBook() == old(SeekBook()).(seekTargetTime := toTime, seekTargetKeypoint := -1.0,
                                             lastFrameSkipped := false, lastSeekPosition := -1)
      ensures old(codec.HasAudio()) && audioFeeder != null ==>
        && !audioFeeder.running
        && audioFeeder.playbackPosition == old(audioFeeder.playbackPosition)
        && audioFeeder.muted == old(audioFeeder.muted)
        && Clock() == old(Clock()).(initialAudioOffset := old(AudioTime()))
      ensures !(old(codec.HasAudio()) && audioFeeder != null) ==>
        && Clock() == old(Clock())
        && (audioFeeder != null ==> unchanged(audioFeeder))
    {
      ResetSeekState(toTime);
      FlushCodec();

      if codec.HasAudio() && audioFeeder != null {
        StopAudio();
      }
    }

    /**
     * The choice `seek` makes once reset: a positive keypoint offset is
     * sought directly (LINEAR_TO_TARGET); 0 and -1 both start a bisection
     * over the whole file toward the target time (BISECT_TO_TARGET), whose
     * first midpoint becomes the last position probed. With nothing probed
     * yet (-1), that probe proceeds unless the midpoint is itself -1.
     */
    method SeekFromOffset(offset: int)
      requires codec != null && codec.Valid() && stream != null
      requires lastSeekPosition == -1 && !lastFrameSkipped
      modifies this, codec, stream
      ensures stream == old(stream) && codec == old(codec) && audioFeeder == old(audioFeeder)
      ensures codec.Valid()
      ensures Playback() == old(Playback()) && Clock() == old(Clock()) && Media() == old(Media())
      ensures offset > 0 ==>
        && SeekBook() == old(SeekBook()).(seekState := LinearToTarget)
        && seekBisector == old(seekBisector)
        && unchanged(codec)
        && stream.seeks == old(stream.seeks) + [offset]
        && stream.readRequests == old(stream.readRequests) + 1
      ensures offset <= 0 ==>
        && seekBisector != null && fresh(seekBisector)
        && seekBisector.State() == StartStep(Range(0, byteLength - 1, 0, 0))
        && SeekBook() == old(SeekBook()).(seekState := BisectToTarget,
                                          bisectTargetTime := old(seekTargetTime),
                                          lastSeekPosition := seekBisector.position)
        && (seekBisector.position != -1 ==>
              && codec.Snapshot() == FlushSpec(old(codec.Snapshot()))
              && stream.seeks == old(stream.seeks) + [seekBisector.position]
              && stream.readRequests == old(stream.readRequests) + 1)
        && (seekBisector.position == -1 ==> unchanged(codec) && unchanged(stream))
    {
      if offset > 0 {
        seekState := LinearToTarget;
        stream.Seek(offset);
        stream.ReadBytes();
      } else {
        seekState := BisectToTarget;
        StartBisection(seekTargetTime);
      }
    }

    /**
     * `seek`: a stream whose length is 0 cannot be sought and nothing
     * changes. Otherwise the reset of `BeginSeek`, then the decoder's index
     * is asked for the keypoint of the target time -- the seconds truncated
     * and passed where the index expects milliseconds -- and
     * `SeekFromOffset` acts on the answer. The decoder ends flushed once,
     * however many flushes the probe adds.
     */
    method Seek(toTime: real)
      requires codec != null && codec.Valid() && stream != null
      modifies this, codec, stream, audioFeeder
      ensures stream == old(stream) && codec == old(codec) && audioFeeder == old(audioFeeder)
      ensures codec.Valid()
      ensures Media() == old(Media())
      ensures stream.bytesTotal == 0 ==>
        && Playback() == old(Playback()) && Clock() == old(Clock()) && SeekBook() == old(SeekBook())
        && seekBisector == old(seekBisector)
        && unchanged(codec) && unchanged(stream) && (audioFeeder != null ==> unchanged(audioFeeder))
      ensures stream.bytesTotal != 0 ==>
        && Playback() == old(Playback()).(state := Seeking)
        && seekTargetTime == toTime && seekTargetKeypoint == -1.0 && !lastFrameSkipped
        && codec.Snapshot() == FlushSpec(old(codec.Snapshot()))
      ensures stream.bytesTotal != 0 && old(codec.HasAudio()) && audioFeeder != null ==>
        && !audioFeeder.running
        && audioFeeder.playbackPosition == old(audioFeeder.playbackPosition)
        && audioFeeder.muted == old(audioFeeder.muted)
        && Clock() == old(Clock()).(initialAudioOffset := old(AudioTime()))
      ensures stream.bytesTotal != 0 && !(old(codec.HasAudio()) && audioFeeder != null) ==>
        && Clock() == old(Clock())
        && (audioFeeder != null ==> unchanged(audioFeeder))
      ensures var offset := KeypointOffset(codec.env, old(codec.Snapshot()), TruncateToLong(toTime));
        stream.bytesTotal != 0 && offset > 0 ==>
        && seekState == LinearToTarget
        && lastSeekPosition == -1 && bisectTargetTime == old(bisectTargetTime)
        && seekBisector == old(seekBisector)
        && stream.seeks == old(stream.seeks) + [offset]
        && stream.readRequests == old(stream.readRequests) + 1
      ensures var offset := KeypointOffset(codec.env, old(codec.Snapshot()), TruncateToLong(toTime));
        stream.bytesTotal != 0 && offset <= 0 ==>
        && seekState == BisectToTarget && bisectTargetTime == toTime
        && seekBisector != null && fresh(seekBisector)
        && seekBisector.State() == StartStep(Range(0, byteLength - 1, 0, 0))
        && lastSeekPosition == seekBisector.position
        && (seekBisector.position != -1 ==>
              && stream.seeks == old(stream.seeks) + [seekBisector.position]
              && stream.readRequests == old(stream.readRequests) + 1)
        && (seekBisector.position == -1 ==> unchanged(stream))
    {
      if stream.bytesTotal == 0 {
        return;
      }
      FlushKeepsIndex(codec.env, codec.Snapshot(), TruncateToLong(toTime));
      BeginSeek(toTime);
      var offset := codec.GetKeypointOffset(TruncateToLong(toTime));
      SeekFromOffset(offset);
    }
  }
}
