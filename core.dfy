/**
 * The value types of the public OGVCore header: picture geometry, decoded
 * frame and audio descriptors, and the AudioBuffer constructor that copies a
 * decoder's per-channel sample arrays.
 *
 * Floating-point fields (aspect ratio, frame rate, timestamps, samples) are
 * modelled as `real`; no rounding behaviour is claimed.
 */
module OgvTypes {

  datatype Option<+T> = None | Some(value: T)

  /** A pixel position (Point); the constructor stores both coordinates. */
  datatype Point = Point(x: int, y: int)

  /** A pixel extent (Size); the constructor stores both dimensions. */
  datatype Size = Size(width: int, height: int)

  /**
   * Picture geometry of a video stream: the coded frame, the visible picture
   * inside it, the picture's offset, the chroma subsampling factors, the
   * pixel aspect ratio and the nominal frame rate.
   */
  datatype FrameLayout = FrameLayout(
    frame: Size,
    picture: Size,
    offset: Point,
    subsampling: Point,
    aspectRatio: real,
    fps: real)

  /**
   * One decoded picture: the shared layout (a null shared pointer is None),
   * its presentation time and the time of the keyframe it depends on. The
   * three plane views (raw pointers and strides) are not part of the model.
   */
  datatype FrameBuffer = FrameBuffer(
    layout: Option<FrameLayout>,
    timestamp: real,
    keyframeTimestamp: real)

  /** Channel count and sample rate of an audio stream. */
  datatype AudioLayout = AudioLayout(channelCount: int, sampleRate: int)

  type Sample = real

  /** A block of decoded audio: one sample vector per entry of `samples`. */
  datatype AudioBuffer = AudioBuffer(
    layout: AudioLayout,
    sampleCount: int,
    samples: seq<seq<Sample>>)

  /** 2 to the power `k`. */
  function Pow2(k: nat): (p: nat)
    ensures p >= 1
  {
    if k == 0 then 1 else 2 * Pow2(k - 1)
  }

  /** `count` copies of `v`. */
  function Repeat<T>(v: T, count: nat): (r: seq<T>)
    ensures |r| == count
    ensures forall i :: 0 <= i < count ==> r[i] == v
  {
    seq(count, _ => v)
  }

  // ---------------------------------------------------------------------
  // AudioBuffer constructor, as the header writes it
  // ---------------------------------------------------------------------

  /**
   * What the constructor reads: it sizes `samples` with `channelCount`
   * empty vectors, then appends `channelCount` copies of the first
   * `sampleCount` floats of `aSamples[channelCount]` -- one past the last
   * channel a decoder hands over.
   */
  predicate AsWrittenReadable(layout: AudioLayout, sampleCount: int, aSamples: seq<seq<Sample>>)
  {
    && 0 <= layout.channelCount
    && 0 <= sampleCount
    && (layout.channelCount > 0 ==>
          layout.channelCount < |aSamples| && sampleCount <= |aSamples[layout.channelCount]|)
  }

  /** The `samples` vector the constructor as written leaves behind. */
  function AsWrittenSamples(layout: AudioLayout, sampleCount: int, aSamples: seq<seq<Sample>>): seq<seq<Sample>>
    requires AsWrittenReadable(layout, sampleCount, aSamples)
  {
    var n := layout.channelCount;
    if n == 0 then [] else Repeat([], n) + Repeat(aSamples[n][..sampleCount], n)
  }

  /**
   * The constructor loop as written: `samples(n)` followed by `n`
   * `push_back`s of a copy of `aSamples[n]`.
   */
  method NewAudioBufferAsWritten(layout: AudioLayout, sampleCount: int, aSamples: seq<seq<Sample>>)
    returns (b: AudioBuffer)
    requires AsWrittenReadable(layout, sampleCount, aSamples)
    ensures b.layout == layout && b.sampleCount == sampleCount
    ensures |b.samples| == 2 * layout.channelCount
    ensures forall c :: 0 <= c < layout.channelCount ==> b.samples[c] == []
    ensures forall c :: layout.channelCount <= c < 2 * layout.channelCount ==>
              b.samples[c] == aSamples[layout.channelCount][..sampleCount]
    ensures b.samples == AsWrittenSamples(layout, sampleCount, aSamples)
  {
    var n := layout.channelCount;
    var samples: seq<seq<Sample>> := Repeat([], n);
    var i := 0;
    while i < n
      invariant 0 <= i <= n
      invariant |samples| == n + i
      invariant forall c :: 0 <= c < n ==> samples[c] == []
      invariant forall c :: n <= c < n + i ==> samples[c] == aSamples[n][..sampleCount]
    {
      samples := samples + [aSamples[n][..sampleCount]];
      i := i + 1;
    }
    b := AudioBuffer(layout, sampleCount, samples);
  }

  /**
   * A caller that hands over exactly one sample array per channel (what
   * every decoder has) can never satisfy the constructor as written.
   */
  lemma AsWrittenReadsPastLastChannel(layout: AudioLayout, sampleCount: int, aSamples: seq<seq<Sample>>)
    requires layout.channelCount > 0 && |aSamples| == layout.channelCount
    ensures !AsWrittenReadable(layout, sampleCount, aSamples)
  {
  }

  /**
   * Even where it can be read, the as-written result is not the intended
   * one: twice as many channel vectors, the first of which is empty.
   */
  lemma AsWrittenDiffersFromIntended(layout: AudioLayout, sampleCount: int, aSamples: seq<seq<Sample>>)
    requires AsWrittenReadable(layout, sampleCount, aSamples)
    requires IntendedReadable(layout, sampleCount, aSamples)
    requires layout.channelCount > 0 && sampleCount > 0
    ensures AsWrittenSamples(layout, sampleCount, aSamples) != IntendedSamples(layout, sampleCount, aSamples)
    ensures AsWrittenSamples(layout, sampleCount, aSamples)[0] == []
    ensures |IntendedSamples(layout, sampleCount, aSamples)[0]| == sampleCount
  {
    var n := layout.channelCount;
    assert |AsWrittenSamples(layout, sampleCount, aSamples)| == 2 * n;
  }

  // ---------------------------------------------------------------------
  // AudioBuffer constructor, as evidently intended
  // ---------------------------------------------------------------------

  /** One sample array of at least `sampleCount` floats per channel. */
  predicate IntendedReadable(layout: AudioLayout, sampleCount: int, aSamples: seq<seq<Sample>>)
  {
    && 0 <= layout.channelCount <= |aSamples|
    && 0 <= sampleCount
    && forall c :: 0 <= c < layout.channelCount ==> sampleCount <= |aSamples[c]|
  }

  /** Channel `c` of the buffer is the first `sampleCount` floats of `aSamples[c]`. */
  function IntendedSamples(layout: AudioLayout, sampleCount: int, aSamples: seq<seq<Sample>>): seq<seq<Sample>>
    requires IntendedReadable(layout, sampleCount, aSamples)
  {
    seq(layout.channelCount, c requires 0 <= c < layout.channelCount => aSamples[c][..sampleCount])
  }

  /**
   * The constructor with `samples` left empty before the loop and channel
   * `i` copied from `aSamples[i]`.
   */
  method NewAudioBuffer(layout: AudioLayout, sampleCount: int, aSamples: seq<seq<Sample>>)
    returns (b: AudioBuffer)
    requires IntendedReadable(layout, sampleCount, aSamples)
    ensures b.layout == layout && b.sampleCount == sampleCount
    ensures |b.samples| == layout.channelCount
    ensures forall c :: 0 <= c < layout.channelCount ==>
              |b.samples[c]| == sampleCount && b.samples[c] == aSamples[c][..sampleCount]
    ensures b.samples == IntendedSamples(layout, sampleCount, aSamples)
  {
    var n := layout.channelCount;
    var samples: seq<seq<Sample>> := [];
    var i := 0;
    while i < n
      invariant 0 <= i <= n
      invariant |samples| == i
      invariant forall c :: 0 <= c < i ==> samples[c] == aSamples[c][..sampleCount]
    {
      samples := samples + [aSamples[i][..sampleCount]];
      i := i + 1;
    }
    b := AudioBuffer(layout, sampleCount, samples);
  }
}
