/**
 * Decoder::impl: the demultiplexing, header negotiation and decode
 * bookkeeping around an Ogg container.
 *
 * The decoder moves through three phases. BEGIN reads beginning-of-stream
 * pages and claims one logical stream per codec. HEADERS feeds the remaining
 * header packets to the codecs. DECODING peeks and decodes data packets, one
 * frame and one audio block at a time.
 *
 * The state of the decoder is the record `DecoderState`, whose parts follow
 * the declaration blocks of Decoder::impl: the Theora, Vorbis, Opus and
 * Skeleton decode state, the single-frame video and audio buffering, and the
 * frame and audio outputs. Every operation is first a function on that
 * record (`ProcessSpec`, `DecodeFrameSpec`, `FlushSpec`, ...), and the
 * lemmas of this module state what those functions guarantee. The class
 * `Decoder` holds the same parts as fields and updates them step by step;
 * each of its methods is proved to leave exactly the state its function
 * describes.
 *
 * The build modelled has OPUS defined and SKELETON undefined: Opus streams
 * are recognised and routed, while Skeleton streams are recognised but
 * their later pages are never routed to them.
 */
module OgvDecoder {
  import opened OgvTypes
  import opened Ogg

  datatype AppState = Begin | Headers | Decoding

  /** TH_DUPFRAME: libtheora's answer for a packet that repeats the last frame. */
  const DupFrame: int := 1

  /** Opus always decodes at 48 kHz (RFC 7845 section 4). */
  const OpusRate: int := 48000

  /** The `th_info` fields the decoder reads once the Theora headers are in. */
  datatype TheoraInfo = TheoraInfo(
    frameWidth: int, frameHeight: int,
    picWidth: int, picHeight: int,
    picX: int, picY: int,
    pixelFmt: nat,
    aspectRatio: real,
    fps: real,
    keyframeGranuleShift: nat)

  /** The `vorbis_info` fields the decoder reads. */
  datatype VorbisInfo = VorbisInfo(channels: int, rate: int)

  /**
   * What libskeleton answers about the index: the segment length, the first
   * and last sample time of a stream (numerator over denominator, by serial
   * number) and the byte offset of the keypoint before a time for a list of
   * serial numbers. A failed query is an answer of -1 like any other.
   */
  datatype SkeletonIndex = SkeletonIndex(
    segmentLength: int,
    firstSampleTime: int -> real,
    lastSampleTime: int -> real,
    keypointOffset: (seq<int>, int) -> int)

  /**
   * The answers of the codec libraries that do not belong to one packet:
   * the stream descriptions and the granule-position-to-seconds conversions
   * `th_granule_time` and `vorbis_granule_time`.
   */
  datatype Env = Env(
    theora: TheoraInfo,
    vorbis: VorbisInfo,
    theoraGranuleTime: int -> real,
    vorbisGranuleTime: int -> real,
    skeleton: SkeletonIndex)

  /** libtheora refuses an identification header with a zero frame-rate term. */
  predicate EnvOk(e: Env)
  {
    e.theora.fps > 0.0
  }

  /** The chroma decimation flags: bit 0 of the pixel format clear means horizontal, bit 1 vertical. */
  function Subsampling(pixelFmt: nat): Point
  {
    Point(if pixelFmt % 2 == 0 then 1 else 0, if (pixelFmt / 2) % 2 == 0 then 1 else 0)
  }

  /** The frame layout built from the Theora stream description. */
  function LayoutOf(t: TheoraInfo): FrameLayout
  {
    FrameLayout(
      Size(t.frameWidth, t.frameHeight),
      Size(t.picWidth, t.picHeight),
      Point(t.picX, t.picY),
      Subsampling(t.pixelFmt),
      t.aspectRatio,
      t.fps)
  }

  /** A decoded audio block as the decoder queues it; the PCM data is not modelled. */
  datatype AudioOut = AudioOut(layout: AudioLayout, sampleCount: int)

  // ---------------------------------------------------------------------
  // State
  // ---------------------------------------------------------------------

  /** Video decode state: the stream, `theoraHeaders`, `theoraProcessingHeaders`, `frames`. */
  datatype TheoraState = TheoraState(stream: LogicalStream, headers: int, processingHeaders: int, frames: int)

  /** `vorbisStreamState`, `vorbisHeaders`, `vorbisProcessingHeaders`. */
  datatype VorbisState = VorbisState(stream: LogicalStream, headers: int, processingHeaders: int)

  /** `opusStreamState`, `opusHeaders`, `opusChannels`, `opusPreskip`, `opusPrevPacketGranpos`. */
  datatype OpusState = OpusState(stream: LogicalStream, headers: int, channels: int, preskip: int, prevPacketGranpos: int)

  /** `skeletonStreamState`, `skeletonHeaders`, `skeletonProcessingHeaders`, `skeletonDone`. */
  datatype SkeletonState = SkeletonState(stream: LogicalStream, headers: int, processingHeaders: int, done: bool)

  /** Single-frame video buffering: `videobufReady`, `videobufGranulepos`, `videobufTime`, `keyframeGranulepos`, `keyframeTime`. */
  datatype VideoBuffering = VideoBuffering(ready: bool, granulepos: int, time: real, keyframeGranulepos: int, keyframeTime: real)

  /** `audiobufReady`, `audiobufGranulepos`, `audiobufTime`. */
  datatype AudioBuffering = AudioBuffering(ready: bool, granulepos: int, time: real)

  /** `frameReady`, `frameLayout`, `queuedFrame` (a null pointer is None). */
  datatype VideoOutput = VideoOutput(frameReady: bool, layout: Option<FrameLayout>, queued: Option<FrameBuffer>)

  /** `audioReady`, `audioLayout`, `queuedAudio` (a null pointer is None). */
  datatype AudioOutput = AudioOutput(audioReady: bool, layout: Option<AudioLayout>, queued: Option<AudioOut>)

  datatype DecoderState = DecoderState(
    appState: AppState,
    needData: bool,
    buffersReceived: bool,
    /** The process has called exit(1). */
    exited: bool,
    /** The answers `ogg_sync_pageout` still has to give. */
    sync: seq<SyncResult>,
    theora: TheoraState,
    vorbis: VorbisState,
    opus: OpusState,
    skeleton: SkeletonState,
    videobuf: VideoBuffering,
    audiobuf: AudioBuffering,
    video: VideoOutput,
    audio: AudioOutput)

  // ---------------------------------------------------------------------
  // Invariant
  // ---------------------------------------------------------------------

  /** Some codec still expects header packets. */
  predicate HeadersPending(s: DecoderState)
  {
    || (s.theora.headers != 0 && s.theora.processingHeaders != 0)
    || (s.vorbis.headers != 0 && s.vorbis.headers < 3)
    || (s.opus.headers != 0 && s.opus.headers < 2)
    || (s.skeleton.headers != 0 && !s.skeleton.done)
  }

  /** The frame layout that belongs to the streams claimed. */
  function ClaimedFrameLayout(e: Env, s: DecoderState): Option<FrameLayout>
  {
    if s.theora.headers != 0 then Some(LayoutOf(e.theora)) else None
  }

  /** The audio layout that belongs to the streams claimed: Opus wins over Vorbis. */
  function ClaimedAudioLayout(e: Env, s: DecoderState): Option<AudioLayout>
  {
    if s.opus.headers != 0 then Some(AudioLayout(s.opus.channels, OpusRate))
    else if s.vorbis.headers != 0 then Some(AudioLayout(e.vorbis.channels, e.vorbis.rate))
    else None
  }

  /** Theora has 0, 1 or 3 as its counter; an unclaimed stream holds no packets. */
  predicate TheoraOk(t: TheoraState)
  {
    && (t.headers == 0 || t.headers == 1 || t.headers == 3)
    && (t.headers == 3 ==> t.processingHeaders == 0)
    && t.frames >= 0
    && (t.headers == 0 ==> t.stream.packets == [])
  }

  predicate VorbisOk(v: VorbisState)
  {
    0 <= v.headers <= 3 && (v.headers == 0 ==> v.stream.packets == [])
  }

  predicate OpusOk(o: OpusState)
  {
    0 <= o.headers <= 2 && (o.headers == 0 ==> o.stream.packets == []) && (o.headers != 0 ==> o.preskip >= 0)
  }

  predicate SkeletonOk(k: SkeletonState)
  {
    0 <= k.headers <= 1 && (k.headers == 0 ==> k.stream.packets == [])
  }

  /**
   * Only DECODING may be without a request for data, and the layouts exist
   * exactly in DECODING, where they describe the claimed streams.
   */
  predicate PhaseOk(e: Env, s: DecoderState)
  {
    && (!s.needData ==> s.appState == Decoding)
    && (s.appState != Decoding ==> s.video.layout.None? && s.audio.layout.None?)
    && (s.appState == Decoding ==>
          && !HeadersPending(s)
          && s.video.layout == ClaimedFrameLayout(e, s)
          && s.audio.layout == ClaimedAudioLayout(e, s))
  }

  /** What every operation keeps. */
  predicate Inv(e: Env, s: DecoderState)
  {
    && TheoraOk(s.theora)
    && VorbisOk(s.vorbis)
    && OpusOk(s.opus)
    && SkeletonOk(s.skeleton)
    && s.videobuf.granulepos >= -1
    && PhaseOk(e, s)
  }

  // ---------------------------------------------------------------------
  // Input: queue_page, receiveInput
  // ---------------------------------------------------------------------

  /** `ogg_stream_pagein` into a stream that has been claimed. */
  function PageInIf(claimed: bool, st: LogicalStream, page: Page): (r: LogicalStream)
    ensures r.serial == st.serial
    ensures |r.packets| >= |st.packets|
    ensures st.packets != [] ==> r.packets != [] && r.packets[0] == st.packets[0]
    ensures !claimed ==> r == st
  {
    if claimed then PageIn(st, page) else st
  }

  /** `queue_page`: hand a page to every claimed Theora, Vorbis and Opus stream. */
  function Route(s: DecoderState, page: Page): DecoderState
  {
    s.(theora := s.theora.(stream := PageInIf(s.theora.headers != 0, s.theora.stream, page)),
       vorbis := s.vorbis.(stream := PageInIf(s.vorbis.headers != 0, s.vorbis.stream, page)),
       opus := s.opus.(stream := PageInIf(s.opus.headers != 0, s.opus.stream, page)))
  }

  /** Routing keeps the invariant and changes only the three streams' packet queues. */
  lemma RouteKeeps(e: Env, s: DecoderState, page: Page)
    requires Inv(e, s)
    ensures var r := Route(s, page);
      && Inv(e, r)
      && r.theora.headers == s.theora.headers && r.vorbis.headers == s.vorbis.headers
      && r.opus.headers == s.opus.headers && r.skeleton == s.skeleton
      && ClaimedFrameLayout(e, r) == ClaimedFrameLayout(e, s)
      && ClaimedAudioLayout(e, r) == ClaimedAudioLayout(e, s)
      && HeadersPending(r) == HeadersPending(s)
  {
  }

  /**
   * The loop `while (ogg_sync_pageout(...) > 0) queue_page(...)`: route every
   * page up to the first loss of synchronisation, which is consumed too.
   */
  function DrainSync(s: DecoderState): DecoderState
    decreases |s.sync|
  {
    if s.sync == [] then s
    else match s.sync[0]
      case SyncLost => s.(sync := s.sync[1..])
      case PageOut(page) => DrainSync(Route(s.(sync := s.sync[1..]), page))
  }

  /** Draining keeps the invariant and changes only the buffer and the three streams' queues. */
  lemma {:induction false} DrainSyncKeeps(e: Env, s: DecoderState)
    requires Inv(e, s)
    ensures var d := DrainSync(s);
      && Inv(e, d)
      && d == s.(sync := d.sync,
                 theora := s.theora.(stream := d.theora.stream),
                 vorbis := s.vorbis.(stream := d.vorbis.stream),
                 opus := s.opus.(stream := d.opus.stream))
      && d.theora.stream.serial == s.theora.stream.serial
      && d.vorbis.stream.serial == s.vorbis.stream.serial
      && d.opus.stream.serial == s.opus.stream.serial
    decreases |s.sync|
  {
    if s.sync != [] && s.sync[0].PageOut? {
      var s1 := s.(sync := s.sync[1..]);
      RouteKeeps(e, s1, s.sync[0].page);
      DrainSyncKeeps(e, Route(s1, s.sync[0].page));
    }
  }

  /**
   * The packets that the buffered answers `q` carry for the stream `serial`,
   * in order, from the pages before the first loss of synchronisation.
   */
  function PacketsFor(serial: int, q: seq<SyncResult>): seq<Packet>
    decreases |q|
  {
    if q == [] then []
    else match q[0]
      case SyncLost => []
      case PageOut(page) => (if page.serial == serial then page.packets else []) + PacketsFor(serial, q[1..])
  }

  /** What is left of the buffered answers `q` after the first loss of synchronisation. */
  function AfterLoss(q: seq<SyncResult>): seq<SyncResult>
    decreases |q|
  {
    if q == [] then []
    else match q[0]
      case SyncLost => q[1..]
      case PageOut(_) => AfterLoss(q[1..])
  }

  /** The stream `queue_page` feeds for a codec; Skeleton's is never fed in this build. */
  function RoutedStream(s: DecoderState, c: Codec): LogicalStream
  {
    match c
    case Theora => s.theora.stream
    case Vorbis => s.vorbis.stream
    case Opus => s.opus.stream
    case Skeleton => s.skeleton.stream
  }

  predicate RoutedClaim(s: DecoderState, c: Codec)
  {
    match c
    case Theora => s.theora.headers != 0
    case Vorbis => s.vorbis.headers != 0
    case Opus => s.opus.headers != 0
    case Skeleton => false
  }

  /** Routing a page hands it to the codec's stream exactly when the codec is routed to. */
  lemma RouteDelivers(s: DecoderState, page: Page, c: Codec)
    ensures var r := Route(s, page);
      && r.sync == s.sync
      && RoutedClaim(r, c) == RoutedClaim(s, c)
      && RoutedStream(r, c) == PageInIf(RoutedClaim(s, c), RoutedStream(s, c), page)
  {
  }

  /** The stream a drain leaves for one codec, page by page. */
  function DrainInto(claimed: bool, st: LogicalStream, q: seq<SyncResult>): LogicalStream
    decreases |q|
  {
    if q == [] then st
    else match q[0]
      case SyncLost => st
      case PageOut(page) => DrainInto(claimed, PageInIf(claimed, st, page), q[1..])
  }

  /** Draining the whole decoder drains each routed stream page by page. */
  lemma {:induction false} DrainSyncProjects(s: DecoderState, c: Codec)
    ensures RoutedStream(DrainSync(s), c) == DrainInto(RoutedClaim(s, c), RoutedStream(s, c), s.sync)
    decreases |s.sync|
  {
    if s.sync != [] && s.sync[0].PageOut? {
      var page := s.sync[0].page;
      var s1 := s.(sync := s.sync[1..]);
      RouteDelivers(s1, page, c);
      DrainSyncProjects(Route(s1, page), c);
    }
  }

  /** A page-by-page drain appends the stream's own packets, in order, up to the first loss. */
  lemma {:induction false} DrainIntoAppends(claimed: bool, st: LogicalStream, q: seq<SyncResult>)
    ensures DrainInto(claimed, st, q).packets == st.packets + (if claimed then PacketsFor(st.serial, q) else [])
    decreases |q|
  {
    if q == [] {
      assert st.packets + [] == st.packets;
    } else if q[0].SyncLost? {
      assert PacketsFor(st.serial, q) == [];
      assert st.packets + [] == st.packets;
    } else {
      var page := q[0].page;
      var st1 := PageInIf(claimed, st, page);
      DrainIntoAppends(claimed, st1, q[1..]);
      assert DrainInto(claimed, st, q) == DrainInto(claimed, st1, q[1..]);
      if claimed {
        var mine := if page.serial == st.serial then page.packets else [];
        var rest := PacketsFor(st.serial, q[1..]);
        assert st1.serial == st.serial;
        assert st1.packets == st.packets + mine;
        assert PacketsFor(st.serial, q) == mine + rest;
        assert st.packets + mine + rest == st.packets + (mine + rest);
      } else {
        assert st1 == st;
        assert st.packets + [] == st.packets;
      }
    }
  }

  /**
   * Draining delivers to a routed stream the packets of every buffered page
   * of its serial number before the first loss of synchronisation, appended
   * in order; any other stream receives nothing.
   */
  lemma DrainSyncDeliversTo(s: DecoderState, c: Codec)
    ensures var st := RoutedStream(s, c);
      RoutedStream(DrainSync(s), c).packets
        == st.packets + (if RoutedClaim(s, c) then PacketsFor(st.serial, s.sync) else [])
  {
    DrainSyncProjects(s, c);
    DrainIntoAppends(RoutedClaim(s, c), RoutedStream(s, c), s.sync);
  }

  /** Draining leaves buffered what follows the first loss of synchronisation. */
  lemma {:induction false} DrainSyncLeaves(s: DecoderState)
    ensures DrainSync(s).sync == AfterLoss(s.sync)
    decreases |s.sync|
  {
    if s.sync != [] && s.sync[0].PageOut? {
      var s1 := s.(sync := s.sync[1..]);
      RouteDelivers(s1, s.sync[0].page, Theora);
      DrainSyncLeaves(Route(s1, s.sync[0].page));
    }
  }

  /**
   * `receiveInput`: a non-empty buffer marks input as received, drains the
   * pages already buffered when decoding, and then appends what the new bytes
   * complete; an empty buffer changes nothing.
   */
  function ReceiveInputSpec(s: DecoderState, size: int, data: seq<SyncResult>): DecoderState
  {
    if size <= 0 then s
    else
      var s1 := s.(buffersReceived := true);
      var s2 := if s1.appState == Decoding then DrainSync(s1) else s1;
      s2.(sync := s2.sync + data)
  }

  /**
   * Input is recorded and buffered after the pages already buffered. Before
   * DECODING nothing is routed; in DECODING the buffered pages up to the
   * first loss of synchronisation are first routed to the claimed streams.
   * The invariant holds afterwards.
   */
  lemma ReceiveInputKeeps(e: Env, s: DecoderState, size: int, data: seq<SyncResult>)
    requires Inv(e, s)
    ensures var r := ReceiveInputSpec(s, size, data);
      && Inv(e, r)
      && (size <= 0 ==> r == s)
      && (size > 0 ==> r.buffersReceived)
      && (size > 0 && s.appState != Decoding ==> r == s.(buffersReceived := true, sync := s.sync + data))
      && (size > 0 && s.appState == Decoding ==>
            && r.sync == AfterLoss(s.sync) + data
            && r.theora.stream.packets == s.theora.stream.packets
                 + (if s.theora.headers != 0 then PacketsFor(s.theora.stream.serial, s.sync) else [])
            && r.vorbis.stream.packets == s.vorbis.stream.packets
                 + (if s.vorbis.headers != 0 then PacketsFor(s.vorbis.stream.serial, s.sync) else [])
            && r.opus.stream.packets == s.opus.stream.packets
                 + (if s.opus.headers != 0 then PacketsFor(s.opus.stream.serial, s.sync) else []))
      && r.appState == s.appState
  {
    if size > 0 {
      var s1 := s.(buffersReceived := true);
      DrainSyncKeeps(e, s1);
      if s.appState == Decoding {
        DrainSyncLeaves(s1);
        DrainSyncDeliversTo(s1, Theora);
        DrainSyncDeliversTo(s1, Vorbis);
        DrainSyncDeliversTo(s1, Opus);
      }
    }
  }

  // ---------------------------------------------------------------------
  // BEGIN: classification of beginning-of-stream pages
  // ---------------------------------------------------------------------

  datatype Codec = Theora | Vorbis | Opus | Skeleton

  /** The order in which the codecs are offered a new stream. */
  function Rank(c: Codec): nat
  {
    match c
    case Theora => 0
    case Vorbis => 1
    case Opus => 2
    case Skeleton => 3
  }

  /** Which codecs have a stream already. */
  datatype Claims = Claims(theora: bool, vorbis: bool, opus: bool, skeleton: bool)

  function ClaimsOf(s: DecoderState): Claims
  {
    Claims(s.theora.headers != 0, s.vorbis.headers != 0, s.opus.headers != 0, s.skeleton.headers != 0)
  }

  predicate Claimed(cl: Claims, c: Codec)
  {
    match c
    case Theora => cl.theora
    case Vorbis => cl.vorbis
    case Opus => cl.opus
    case Skeleton => cl.skeleton
  }

  /** Whether the codec library recognises the packet as its first header. */
  predicate Recognises(c: Codec, p: Packet)
  {
    match c
    case Theora => p.theoraHeader >= 0
    case Vorbis => p.vorbisHeader == 0
    case Opus => p.opusHead.Some?
    case Skeleton => p.skeletonHeader >= 0
  }

  /** A codec takes a stream when it has none yet and recognises its first packet. */
  predicate Accepts(cl: Claims, c: Codec, p: Packet)
  {
    !Claimed(cl, c) && Recognises(c, p)
  }

  /** The codec that claims a stream whose first packet is `p`, if any. */
  function Classify(cl: Claims, p: Packet): Option<Codec>
  {
    if Accepts(cl, Theora, p) then Some(Theora)
    else if Accepts(cl, Vorbis, p) then Some(Vorbis)
    else if Accepts(cl, Opus, p) then Some(Opus)
    else if Accepts(cl, Skeleton, p) then Some(Skeleton)
    else None
  }

  /**
   * The codec chosen accepts the packet and every codec before it in the
   * order refuses it; no codec is chosen only when none accepts.
   */
  lemma ClassifyFirstAcceptor(cl: Claims, p: Packet)
    ensures var r := Classify(cl, p);
      && (r.Some? ==> Accepts(cl, r.value, p))
      && (r.Some? ==> forall c :: Rank(c) < Rank(r.value) ==> !Accepts(cl, c, p))
      && (r.None? <==> forall c :: !Accepts(cl, c, p))
  {
  }

  function AddClaim(cl: Claims, c: Option<Codec>): Claims
  {
    match c
    case None => cl
    case Some(Theora) => cl.(theora := true)
    case Some(Vorbis) => cl.(vorbis := true)
    case Some(Opus) => cl.(opus := true)
    case Some(Skeleton) => cl.(skeleton := true)
  }

  /** The stream a codec that claims `page` keeps: the page's packets after the first. */
  function ClaimedStream(page: Page): LogicalStream
  {
    LogicalStream(page.serial, if page.packets == [] then [] else page.packets[1..])
  }

  /**
   * Theora is offered the first packet of a BOS page when it has no stream:
   * an answer >= 0 claims the stream, keeping the packet as video data when
   * the answer is 0; a negative answer is only recorded.
   */
  function TheoraBegin(t: TheoraState, p: Packet, test: LogicalStream): TheoraState
  {
    if t.headers != 0 then t
    else if p.theoraHeader >= 0 then
      t.(processingHeaders := p.theoraHeader, headers := 1,
         stream := if p.theoraHeader == 0 then test else DropPacket(test))
    else t.(processingHeaders := p.theoraHeader)
  }

  /** Vorbis, when it has no stream: an answer of 0 claims it and drops the packet. */
  function VorbisBegin(v: VorbisState, p: Packet, test: LogicalStream): VorbisState
  {
    if v.headers != 0 then v
    else if p.vorbisHeader == 0 then v.(processingHeaders := 0, headers := 1, stream := DropPacket(test))
    else v.(processingHeaders := p.vorbisHeader)
  }

  /** Opus, when it has no stream: a decoded identification header claims it. */
  function OpusBegin(o: OpusState, p: Packet, test: LogicalStream): OpusState
  {
    if o.headers == 0 && p.opusHead.Some? then
      OpusState(DropPacket(test), 1, p.opusHead.value.channels, p.opusHead.value.preskip, 0)
    else o
  }

  /** Skeleton, when it has no stream: an answer >= 0 claims it, not yet done. */
  function SkeletonBegin(k: SkeletonState, p: Packet, test: LogicalStream): SkeletonState
  {
    if k.headers != 0 then k
    else if p.skeletonHeader >= 0 then
      k.(processingHeaders := p.skeletonHeader, headers := 1, done := false, stream := DropPacket(test))
    else k.(processingHeaders := p.skeletonHeader)
  }

  /**
   * `processBegin`. The codecs are tried in the order Theora, Vorbis, Opus,
   * Skeleton, and the first that accepts the page's first packet stops the
   * chain; each codec tried records its answer. A page that is not BOS ends
   * BEGIN.
   */
  function ProcessBeginSpec(s: DecoderState, page: Page): DecoderState
  {
    if !page.bos then s.(appState := Headers)
    else
      var test := PageIn(StreamInit(page.serial), page);
      if test.packets == [] then s
      else
        var p := test.packets[0];
        var t := TheoraBegin(s.theora, p, test);
        if s.theora.headers == 0 && p.theoraHeader >= 0 then s.(theora := t)
        else
          var v := VorbisBegin(s.vorbis, p, test);
          if s.vorbis.headers == 0 && p.vorbisHeader == 0 then s.(theora := t, vorbis := v)
          else if s.opus.headers == 0 && p.opusHead.Some? then s.(theora := t, vorbis := v, opus := OpusBegin(s.opus, p, test))
          else s.(theora := t, vorbis := v, skeleton := SkeletonBegin(s.skeleton, p, test))
  }

  /** The state after a BOS page whose first packet is `p`, as the if-chain of `processBegin` leaves it. */
  lemma BeginBosStep(s: DecoderState, page: Page)
    requires page.bos && page.packets != []
    ensures var p := page.packets[0];
      var test := LogicalStream(page.serial, page.packets);
      var s' := ProcessBeginSpec(s, page);
      && s'.appState == s.appState && s'.sync == s.sync
      && s'.theora == TheoraBegin(s.theora, p, test)
      && (Classify(ClaimsOf(s), p) == Some(Theora) ==>
            s'.vorbis == s.vorbis && s'.opus == s.opus && s'.skeleton == s.skeleton)
      && (Classify(ClaimsOf(s), p) != Some(Theora) ==> s'.vorbis == VorbisBegin(s.vorbis, p, test))
      && (Classify(ClaimsOf(s), p) == Some(Opus) ==> s'.opus == OpusBegin(s.opus, p, test))
      && (Classify(ClaimsOf(s), p) != Some(Opus) ==> s'.opus == s.opus)
      && (Classify(ClaimsOf(s), p) in {None, Some(Skeleton)} ==> s'.skeleton == SkeletonBegin(s.skeleton, p, test))
      && (Classify(ClaimsOf(s), p) !in {None, Some(Skeleton)} ==> s'.skeleton == s.skeleton)
  {
    var p := page.packets[0];
    var test := LogicalStream(page.serial, page.packets);
    assert PageIn(StreamInit(page.serial), page) == test;
    var t := TheoraBegin(s.theora, p, test);
    var v := VorbisBegin(s.vorbis, p, test);
    if s.theora.headers == 0 && p.theoraHeader >= 0 {
      assert ProcessBeginSpec(s, page) == s.(theora := t);
    } else if s.vorbis.headers == 0 && p.vorbisHeader == 0 {
      assert ProcessBeginSpec(s, page) == s.(theora := t, vorbis := v);
    } else if s.opus.headers == 0 && p.opusHead.Some? {
      assert ProcessBeginSpec(s, page) == s.(theora := t, vorbis := v, opus := OpusBegin(s.opus, p, test));
    } else {
      assert ProcessBeginSpec(s, page) == s.(theora := t, vorbis := v, skeleton := SkeletonBegin(s.skeleton, p, test));
    }
  }

  /**
   * BEGIN keeps the invariant. A page without the BOS flag moves to HEADERS
   * and changes nothing else; a BOS page leaves the phase BEGIN, and one
   * that finishes no packet changes nothing.
   */
  lemma BeginKeeps(e: Env, s: DecoderState, page: Page)
    requires Inv(e, s) && s.appState == Begin
    ensures var s' := ProcessBeginSpec(s, page);
      && Inv(e, s')
      && (!page.bos ==> s' == s.(appState := Headers))
      && (page.bos ==> s'.appState == Begin)
      && (page.bos && page.packets == [] ==> s' == s)
  {
    if page.bos && page.packets != [] {
      BeginBosStep(s, page);
      BeginGroupsKeep(s, page.packets[0], LogicalStream(page.serial, page.packets));
    }
  }

  /**
   * A BOS page is claimed by the first codec, in the order Theora, Vorbis,
   * Opus, Skeleton, that has no stream yet and accepts the page's first
   * packet (`Classify`). Its counter becomes 1 and it receives the page's
   * packets. If no codec accepts, no counter or stream changes.
   */
  lemma BeginClaimsByPriority(s: DecoderState, page: Page)
    requires page.bos && page.packets != []
    ensures var s' := ProcessBeginSpec(s, page);
      var c := Classify(ClaimsOf(s), page.packets[0]);
      && ClaimsOf(s') == AddClaim(ClaimsOf(s), c)
      && (c == Some(Theora) ==>
            && s'.theora.headers == 1
            && s'.theora.stream == (if page.packets[0].theoraHeader == 0
                                    then LogicalStream(page.serial, page.packets)
                                    else ClaimedStream(page)))
      && (c == Some(Vorbis) ==> s'.vorbis.headers == 1 && s'.vorbis.stream == ClaimedStream(page))
      && (c == Some(Opus) ==>
            && s'.opus.headers == 1 && s'.opus.stream == ClaimedStream(page)
            && s'.opus.prevPacketGranpos == 0
            && s'.opus.preskip == page.packets[0].opusHead.value.preskip)
      && (c == Some(Skeleton) ==>
            && s'.skeleton.headers == 1 && s'.skeleton.stream == ClaimedStream(page)
            && !s'.skeleton.done)
      && (c.None? ==>
            && s'.theora.headers == s.theora.headers && s'.vorbis.headers == s.vorbis.headers
            && s'.opus == s.opus && s'.skeleton.headers == s.skeleton.headers
            && s'.theora.stream == s.theora.stream && s'.vorbis.stream == s.vorbis.stream
            && s'.skeleton.stream == s.skeleton.stream)
  {
    BeginBosStep(s, page);
  }

  /** Each codec's BEGIN step keeps its part of the invariant. */
  lemma BeginGroupsKeep(s: DecoderState, p: Packet, test: LogicalStream)
    requires TheoraOk(s.theora) && VorbisOk(s.vorbis) && OpusOk(s.opus) && SkeletonOk(s.skeleton)
    ensures TheoraOk(TheoraBegin(s.theora, p, test))
    ensures VorbisOk(VorbisBegin(s.vorbis, p, test))
    ensures OpusOk(OpusBegin(s.opus, p, test))
    ensures SkeletonOk(SkeletonBegin(s.skeleton, p, test))
  {
  }

  // ---------------------------------------------------------------------
  // HEADERS: the remaining header packets
  // ---------------------------------------------------------------------

  /** The Skeleton pass: take one packet, if any; its end-of-stream flag ends the Skeleton headers. */
  function SkeletonPass(k: SkeletonState): SkeletonState
  {
    if k.headers != 0 && !k.done && k.stream.packets != [] then
      var p := k.stream.packets[0];
      k.(stream := DropPacket(k.stream), processingHeaders := p.skeletonHeader, done := p.eos)
    else k
  }

  /**
   * The Theora pass: offer the next packet to the library. A 0 answer ends
   * the headers and leaves the packet queued as video data; a positive
   * answer consumes a header; a negative answer leaves the packet queued.
   */
  function TheoraPass(t: TheoraState): TheoraState
  {
    if t.headers != 0 && t.processingHeaders != 0 && t.stream.packets != [] then
      var r := t.stream.packets[0].theoraHeader;
      if r == 0 then t.(processingHeaders := 0, headers := 3)
      else if r < 0 then t.(processingHeaders := r)
      else t.(processingHeaders := r, stream := DropPacket(t.stream))
    else t
  }

  /** The Vorbis pass: an accepted packet counts one more header; a refused one ends the process. */
  function VorbisPass(v: VorbisState): VorbisState
  {
    if v.headers != 0 && v.headers < 3 && v.stream.packets != [] then
      var r := v.stream.packets[0].vorbisHeader;
      if r == 0 then v.(processingHeaders := 0, headers := v.headers + 1, stream := DropPacket(v.stream))
      else v.(processingHeaders := r)
    else v
  }

  /** The Vorbis pass ends the process: the library refused a header packet. */
  predicate VorbisRefuses(v: VorbisState)
  {
    v.headers != 0 && v.headers < 3 && v.stream.packets != [] && v.stream.packets[0].vorbisHeader != 0
  }

  /** The Opus pass: the comment header is counted and dropped unchecked, present or not. */
  function OpusPass(o: OpusState): OpusState
  {
    if o.headers != 0 && o.headers < 2 then o.(headers := o.headers + 1, stream := DropPacket(o.stream))
    else o
  }

  /** Headers complete: build the layouts of the claimed streams and start decoding. */
  function FinishHeaders(e: Env, s: DecoderState): DecoderState
  {
    s.(video := if s.theora.headers != 0 then s.video.(layout := Some(LayoutOf(e.theora))) else s.video,
       audio := if s.opus.headers != 0 then s.audio.(layout := Some(AudioLayout(s.opus.channels, OpusRate)))
                else if s.vorbis.headers != 0 then s.audio.(layout := Some(AudioLayout(e.vorbis.channels, e.vorbis.rate)))
                else s.audio,
       appState := Decoding)
  }

  /** `processHeaders`: one pass over the codecs still expecting headers, or the move to DECODING. */
  function ProcessHeadersSpec(e: Env, s: DecoderState): DecoderState
  {
    if HeadersPending(s) then
      var k := SkeletonPass(s.skeleton);
      var t := TheoraPass(s.theora);
      if VorbisRefuses(s.vorbis) then
        s.(skeleton := k, theora := t,
           vorbis := s.vorbis.(processingHeaders := s.vorbis.stream.packets[0].vorbisHeader), exited := true)
      else
        s.(skeleton := k, theora := t, vorbis := VorbisPass(s.vorbis), opus := OpusPass(s.opus))
    else FinishHeaders(e, s)
  }

  lemma TheoraPassKeeps(t: TheoraState)
    requires TheoraOk(t)
    ensures TheoraOk(TheoraPass(t))
    ensures TheoraPass(t).headers != 0 <==> t.headers != 0
    ensures TheoraPass(t).stream.serial == t.stream.serial
  {
  }

  /**
   * HEADERS ends exactly when no codec expects a header: Theora is absent or
   * its last answer was 0, Vorbis has none or all three of its headers
   * (section 4.2 of the Vorbis I standard), Opus none or both of its
   * (RFC 7845 section 5), and Skeleton is absent or has seen its
   * end-of-stream. At that moment the frame layout exists iff Theora was
   * claimed and the audio layout comes from Opus if claimed, else Vorbis.
   */
  lemma HeadersToDecoding(e: Env, s: DecoderState)
    requires Inv(e, s) && s.appState == Headers && !s.exited
    ensures !HeadersPending(s) <==>
      && (s.theora.headers == 0 || s.theora.processingHeaders == 0)
      && s.vorbis.headers != 1 && s.vorbis.headers != 2
      && s.opus.headers != 1
      && (s.skeleton.headers == 0 || s.skeleton.done)
    ensures var s' := ProcessHeadersSpec(e, s);
      && (s'.appState == Decoding <==> !HeadersPending(s))
      && (s'.appState != Decoding ==> s'.appState == Headers)
      && Inv(e, s')
      && ClaimsOf(s') == ClaimsOf(s)
      && (s'.appState == Decoding ==>
            && (s'.video.layout.Some? <==> s.theora.headers != 0)
            && (s.theora.headers != 0 ==> s'.video.layout == Some(LayoutOf(e.theora)))
            && (s.opus.headers != 0 ==> s'.audio.layout == Some(AudioLayout(s.opus.channels, OpusRate)))
            && (s.opus.headers == 0 && s.vorbis.headers != 0 ==>
                  s'.audio.layout == Some(AudioLayout(e.vorbis.channels, e.vorbis.rate)))
            && (s.opus.headers == 0 && s.vorbis.headers == 0 ==> s'.audio.layout.None?))
  {
    TheoraPassKeeps(s.theora);
  }

  /**
   * In HEADERS the Vorbis counter rises by exactly one per accepted header
   * packet, which is consumed, and never exceeds 3; a refused header ends
   * the process.
   */
  lemma VorbisHeaderCounting(e: Env, s: DecoderState)
    requires Inv(e, s) && s.appState == Headers && !s.exited
    ensures var s' := ProcessHeadersSpec(e, s);
      && s.vorbis.headers <= s'.vorbis.headers <= 3
      && (s'.vorbis.headers == s.vorbis.headers + 1 <==>
            && HeadersPending(s)
            && 1 <= s.vorbis.headers < 3
            && s.vorbis.stream.packets != []
            && s.vorbis.stream.packets[0].vorbisHeader == 0)
      && (s'.vorbis.headers != s.vorbis.headers ==>
            s'.vorbis.headers == s.vorbis.headers + 1 && s'.vorbis.stream.packets == s.vorbis.stream.packets[1..])
      && (s'.exited <==> HeadersPending(s) && VorbisRefuses(s.vorbis))
  {
  }

  /**
   * The Opus comment header is counted whether or not a packet is there:
   * with the comment page still missing, one pass completes the Opus headers
   * and the comment packet will later be taken for audio.
   */
  lemma OpusCommentCountedUnseen(e: Env, s: DecoderState)
    requires Inv(e, s) && s.appState == Headers && !s.exited && !VorbisRefuses(s.vorbis)
    requires s.opus.headers == 1 && s.opus.stream.packets == []
    ensures ProcessHeadersSpec(e, s).opus.headers == 2
    ensures ProcessHeadersSpec(e, s).opus.stream == s.opus.stream
  {
  }

  // ---------------------------------------------------------------------
  // DECODING: peeking at the next packets
  // ---------------------------------------------------------------------

  /** A multiple of `p` leaves no remainder. */
  lemma MultipleHasNoRemainder(q: int, p: int)
    requires p > 0
    ensures (q * p) % p == 0
  {
    var d, r := (q * p) / p, (q * p) % p;
    assert p * (q - d) == r && 0 <= r < p;
    // p * (q - d) lies in [0, p) only when q - d is 0.
    if q - d >= 1 {
    } else if q - d <= -1 {
    }
  }

  /** `(gp >> shift) << shift` on a 64-bit granule position: clear the low `shift` bits. */
  function KeyframeGranule(gp: int, shift: nat): (k: int)
    ensures k % Pow2(shift) == 0
    ensures k <= gp < k + Pow2(shift)
  {
    var p := Pow2(shift);
    assert gp == p * (gp / p) + gp % p;
    MultipleHasNoRemainder(gp / p, p);
    (gp / p) * p
  }

  /** From the unknown position -1 the keyframe position is -2^shift. */
  lemma KeyframeOfUnknown(shift: nat)
    ensures KeyframeGranule(-1, shift) == -(Pow2(shift) as int)
  {
    var p: int := Pow2(shift);
    var q := -1 / p;
    assert -1 == p * q + (-1) % p;
    assert q == -1;
  }

  /** The granule position of the next video packet. */
  function NextVideoGranule(current: int, packetGranule: int): int
  {
    if packetGranule >= 0 then packetGranule
    else if current < 0 then current
    else current + 1
  }

  /**
   * The video half of `processDecoding`: peek at the next Theora packet,
   * update the granule position, and recompute the times only when that
   * position is negative.
   */
  function VideoPeek(e: Env, s: DecoderState): DecoderState
  {
    if s.theora.stream.packets == [] then s.(needData := true)
    else
      var gp := NextVideoGranule(s.videobuf.granulepos, s.theora.stream.packets[0].granulepos);
      var vb := s.videobuf.(ready := true, granulepos := gp);
      var vb' := if gp < 0 then
                   var kg := KeyframeGranule(gp, e.theora.keyframeGranuleShift);
                   vb.(keyframeGranulepos := kg, time := e.theoraGranuleTime(gp),
                       keyframeTime := e.theoraGranuleTime(kg))
                 else vb;
      s.(videobuf := vb', video := s.video.(frameReady := true))
  }

  /** The audio layout a decoder in DECODING has for the audio codec it uses. */
  predicate AudioLayoutReady(s: DecoderState)
  {
    && (s.opus.headers != 0 ==> s.audio.layout == Some(AudioLayout(s.opus.channels, OpusRate)))
    && (s.vorbis.headers != 0 ==> s.audio.layout.Some?)
  }

  /** The next audio packet's granule position, when it carries one, and the time it gives. */
  function AudioPeekBuffer(ab: AudioBuffering, gp: int, time: real): AudioBuffering
  {
    if gp == -1 then ab.(ready := true) else AudioBuffering(true, gp, time)
  }

  /** The audio half of `processDecoding`: peek at the next Opus packet, else the next Vorbis one. */
  function AudioPeek(e: Env, s: DecoderState): DecoderState
    requires AudioLayoutReady(s)
  {
    if s.opus.headers != 0 then
      if s.opus.stream.packets == [] then s.(needData := true)
      else
        var gp := s.opus.stream.packets[0].granulepos;
        s.(audiobuf := AudioPeekBuffer(s.audiobuf, gp, gp as real / s.audio.layout.value.sampleRate as real),
           audio := s.audio.(audioReady := true))
    else if s.vorbis.headers != 0 then
      if s.vorbis.stream.packets == [] then s.(needData := true)
      else
        var gp := s.vorbis.stream.packets[0].granulepos;
        s.(audiobuf := AudioPeekBuffer(s.audiobuf, gp, e.vorbisGranuleTime(gp)),
           audio := s.audio.(audioReady := true))
    else s
  }

  /** `processDecoding`. */
  function ProcessDecodingSpec(e: Env, s: DecoderState): DecoderState
    requires AudioLayoutReady(s)
  {
    var s1 := s.(needData := false);
    var s2 := if s1.theora.headers != 0 && !s1.videobuf.ready then VideoPeek(e, s1) else s1;
    if !s2.audiobuf.ready then AudioPeek(e, s2) else s2
  }

  /** The video peek keeps the invariant and touches only `needData`, the video buffering and `frameReady`. */
  lemma VideoPeekKeeps(e: Env, s: DecoderState)
    requires Inv(e, s) && s.appState == Decoding && s.theora.headers != 0
    ensures var v := VideoPeek(e, s);
      && Inv(e, v)
      && v == s.(needData := v.needData, videobuf := v.videobuf, video := s.video.(frameReady := v.video.frameReady))
      && (v.needData <==> s.needData || s.theora.stream.packets == [])
      && (s.theora.stream.packets == [] ==> v.videobuf == s.videobuf)
      && (s.theora.stream.packets != [] ==>
            var pg := s.theora.stream.packets[0].granulepos;
            && v.videobuf.ready && v.video.frameReady
            && (pg >= 0 ==> v.videobuf.granulepos == pg)
            && (pg < 0 && s.videobuf.granulepos >= 0 ==> v.videobuf.granulepos == s.videobuf.granulepos + 1)
            && (pg < 0 && s.videobuf.granulepos < 0 ==> v.videobuf.granulepos == -1))
  {
  }

  /** The audio peek keeps the invariant and touches only `needData`, the audio buffering and `audioReady`. */
  lemma AudioPeekKeeps(e: Env, s: DecoderState)
    requires Inv(e, s) && s.appState == Decoding
    ensures var a := AudioPeek(e, s);
      && Inv(e, a)
      && a == s.(needData := a.needData, audiobuf := a.audiobuf, audio := s.audio.(audioReady := a.audio.audioReady))
      && (a.needData <==>
            || s.needData
            || (s.opus.headers != 0 && s.opus.stream.packets == [])
            || (s.opus.headers == 0 && s.vorbis.headers != 0 && s.vorbis.stream.packets == []))
  {
  }

  /**
   * What the audio peek finds. With an Opus stream claimed, its next packet
   * is read, otherwise the next Vorbis one. When the packet carries a granule
   * position, the audio buffering takes it, with the time it gives at 48 kHz
   * for Opus and from the Vorbis library for Vorbis; a packet without one
   * keeps the old position and time. Either way the buffer and `audioReady`
   * end set. With no audio stream claimed nothing changes.
   */
  lemma AudioPeekSets(e: Env, s: DecoderState)
    requires Inv(e, s) && s.appState == Decoding
    ensures var a := AudioPeek(e, s);
      && (s.opus.headers != 0 && s.opus.stream.packets != [] ==>
            var gp := s.opus.stream.packets[0].granulepos;
            && a.audiobuf.ready && a.audio.audioReady
            && (gp != -1 ==> a.audiobuf.granulepos == gp && a.audiobuf.time == gp as real / OpusRate as real)
            && (gp == -1 ==> a.audiobuf.granulepos == s.audiobuf.granulepos && a.audiobuf.time == s.audiobuf.time))
      && (s.opus.headers == 0 && s.vorbis.headers != 0 && s.vorbis.stream.packets != [] ==>
            var gp := s.vorbis.stream.packets[0].granulepos;
            && a.audiobuf.ready && a.audio.audioReady
            && (gp != -1 ==> a.audiobuf.granulepos == gp && a.audiobuf.time == e.vorbisGranuleTime(gp))
            && (gp == -1 ==> a.audiobuf.granulepos == s.audiobuf.granulepos && a.audiobuf.time == s.audiobuf.time))
      && (s.opus.headers == 0 && s.vorbis.headers == 0 ==> a == s)
  {
  }

  /**
   * In `processDecoding` the audio buffering and `audioReady` come out as the
   * audio peek leaves them when the buffer was not ready, and unchanged when
   * it was: the video peek before it touches neither.
   */
  lemma DecodingAudioPeek(e: Env, s: DecoderState)
    requires Inv(e, s) && s.appState == Decoding
    ensures var s' := ProcessDecodingSpec(e, s);
      && (!s.audiobuf.ready ==>
            s'.audiobuf == AudioPeek(e, s).audiobuf && s'.audio.audioReady == AudioPeek(e, s).audio.audioReady)
      && (s.audiobuf.ready ==> s'.audiobuf == s.audiobuf && s'.audio.audioReady == s.audio.audioReady)
  {
    var s1 := s.(needData := false);
    var s2 := if s1.theora.headers != 0 && !s1.videobuf.ready then VideoPeek(e, s1) else s1;
    assert s2.opus == s.opus && s2.vorbis == s.vorbis && s2.audiobuf == s.audiobuf && s2.audio == s.audio;
    AudioPeekLocal(e, s, s2);
  }

  /** The audio peek reads only the audio streams, the audio buffering and the audio output. */
  lemma AudioPeekLocal(e: Env, s: DecoderState, t: DecoderState)
    requires AudioLayoutReady(s)
    requires t.opus == s.opus && t.vorbis == s.vorbis && t.audiobuf == s.audiobuf && t.audio == s.audio
    ensures AudioLayoutReady(t)
    ensures AudioPeek(e, t).audiobuf == AudioPeek(e, s).audiobuf
    ensures AudioPeek(e, t).audio == AudioPeek(e, s).audio
  {
    if s.opus.headers != 0 {
      if s.opus.stream.packets != [] {
        assert t.opus.stream.packets[0] == s.opus.stream.packets[0];
      }
    } else if s.vorbis.headers != 0 {
      if s.vorbis.stream.packets != [] {
        assert t.vorbis.stream.packets[0] == s.vorbis.stream.packets[0];
      }
    }
  }

  /**
   * Peeking at the next packets: the video granule position becomes the
   * packet's when it has one, advances by one when it is already known, and
   * otherwise stays -1. `needData` ends true exactly when a stream that was
   * to be peeked at had no packet. Nothing is consumed and the negotiated
   * state does not change.
   */
  lemma DecodingPeek(e: Env, s: DecoderState)
    requires Inv(e, s) && s.appState == Decoding
    ensures var s' := ProcessDecodingSpec(e, s);
      && Inv(e, s')
      && s'.theora == s.theora && s'.vorbis == s.vorbis && s'.opus == s.opus && s'.skeleton == s.skeleton
      && s'.appState == Decoding && s'.video.layout == s.video.layout && s'.audio.layout == s.audio.layout
      && (s.theora.headers != 0 && !s.videobuf.ready && s.theora.stream.packets != [] ==>
            var pg := s.theora.stream.packets[0].granulepos;
            && s'.videobuf.ready && s'.video.frameReady
            && (pg >= 0 ==> s'.videobuf.granulepos == pg)
            && (pg < 0 && s.videobuf.granulepos >= 0 ==> s'.videobuf.granulepos == s.videobuf.granulepos + 1)
            && (pg < 0 && s.videobuf.granulepos < 0 ==> s'.videobuf.granulepos == -1))
      && (!(s.theora.headers != 0 && !s.videobuf.ready) ==> s'.videobuf == s.videobuf)
      && (s'.needData <==>
            || (s.theora.headers != 0 && !s.videobuf.ready && s.theora.stream.packets == [])
            || (!s.audiobuf.ready && s.opus.headers != 0 && s.opus.stream.packets == [])
            || (!s.audiobuf.ready && s.opus.headers == 0 && s.vorbis.headers != 0 && s.vorbis.stream.packets == []))
  {
    var s1 := s.(needData := false);
    var s2 := if s1.theora.headers != 0 && !s1.videobuf.ready then VideoPeek(e, s1) else s1;
    if s1.theora.headers != 0 && !s1.videobuf.ready {
      VideoPeekKeeps(e, s1);
    }
    if !s2.audiobuf.ready {
      AudioPeekKeeps(e, s2);
    }
  }

  /**
   * The video times are recomputed only when the new granule position is
   * negative, that is still unknown (-1); a known position leaves them as
   * they were. The keyframe position computed from -1 is -2^shift.
   */
  lemma TimesOnlyFromUnknownGranule(e: Env, s: DecoderState)
    requires Inv(e, s) && s.appState == Decoding
    requires s.theora.headers != 0 && !s.videobuf.ready && s.theora.stream.packets != []
    ensures var s' := ProcessDecodingSpec(e, s);
      && (s'.videobuf.granulepos >= 0 ==>
            && s'.videobuf.time == s.videobuf.time && s'.videobuf.keyframeTime == s.videobuf.keyframeTime
            && s'.videobuf.keyframeGranulepos == s.videobuf.keyframeGranulepos)
      && (s'.videobuf.granulepos < 0 ==>
            && s'.videobuf.granulepos == -1
            && s'.videobuf.keyframeGranulepos == -(Pow2(e.theora.keyframeGranuleShift) as int)
            && s'.videobuf.time == e.theoraGranuleTime(-1))
  {
    KeyframeOfUnknown(e.theora.keyframeGranuleShift);
  }

  // ---------------------------------------------------------------------
  // Decoding a frame
  // ---------------------------------------------------------------------

  /** `1.0 / fps`: the time between two frames. */
  function FrameInterval(e: Env): real
    requires EnvOk(e)
  {
    1.0 / e.theora.fps
  }

  /** `decodeFrame`: the new state and whether a frame was queued. */
  function DecodeFrameSpec(e: Env, s: DecoderState): (DecoderState, bool)
    requires EnvOk(e)
  {
    if s.theora.stream.packets == [] then (s, false)
    else
      var p := s.theora.stream.packets[0];
      FrameStep(e, s.(theora := s.theora.(stream := DropPacket(s.theora.stream)),
                      videobuf := s.videobuf.(ready := false)), p)
  }

  /**
   * The library's answer for the packet taken: a new frame takes its time
   * from the granule position when that time is positive, a duplicate (or a
   * new frame without a usable time) advances by one frame interval; both
   * count a frame and queue it.
   */
  function FrameStep(e: Env, s: DecoderState, p: Packet): (DecoderState, bool)
    requires EnvOk(e)
  {
    if p.theoraDecode == 0 || p.theoraDecode == DupFrame then
      var g := e.theoraGranuleTime(s.videobuf.granulepos);
      var time := if p.theoraDecode == 0 && g > 0.0 then g else s.videobuf.time + FrameInterval(e);
      var frame := FrameBuffer(s.video.layout, time, s.videobuf.keyframeTime);
      (s.(theora := s.theora.(frames := s.theora.frames + 1), videobuf := s.videobuf.(time := time),
          video := s.video.(queued := Some(frame))), true)
    else (s, false)
  }

  /** Decoding the next frame would queue one. */
  predicate FrameWouldQueue(e: Env, s: DecoderState)
    requires EnvOk(e)
  {
    DecodeFrameSpec(e, s).1
  }

  /**
   * Without a packet, decodeFrame fails and changes nothing. With one, it
   * consumes it and clears `videobufReady`. It succeeds exactly when the
   * library reports a new or duplicated frame; then it counts one frame and
   * queues exactly one buffer carrying the layout, the new time and the
   * keyframe time, and a duplicate advances the time by one frame interval.
   */
  lemma DecodeFrameOutcome(e: Env, s: DecoderState)
    requires EnvOk(e) && Inv(e, s)
    ensures var (s', ok) := DecodeFrameSpec(e, s);
      && Inv(e, s')
      && (s.theora.stream.packets == [] ==> s' == s && !ok)
      && (s.theora.stream.packets != [] ==>
            var p := s.theora.stream.packets[0];
            && !s'.videobuf.ready
            && s'.theora.stream.packets == s.theora.stream.packets[1..]
            && (ok <==> p.theoraDecode == 0 || p.theoraDecode == DupFrame)
            && (p.theoraDecode == DupFrame ==> s'.videobuf.time == s.videobuf.time + FrameInterval(e)))
      && (ok ==> s'.theora.frames == s.theora.frames + 1
                 && s'.video.queued == Some(FrameBuffer(s.video.layout, s'.videobuf.time, s.videobuf.keyframeTime)))
      && (!ok ==> s'.theora.frames == s.theora.frames && s'.video.queued == s.video.queued)
      && s'.videobuf.granulepos == s.videobuf.granulepos && s'.video.layout == s.video.layout
  {
  }

  /** `discardFrame`: drop the peeked video packet, if one was peeked. */
  function DiscardFrameSpec(s: DecoderState): DecoderState
  {
    if s.videobuf.ready then
      s.(theora := if s.theora.headers != 0 then s.theora.(stream := DropPacket(s.theora.stream)) else s.theora,
         videobuf := s.videobuf.(ready := false))
    else s
  }

  // ---------------------------------------------------------------------
  // Decoding audio
  // ---------------------------------------------------------------------

  /** The decoded count after the end trim, and the new previous granule position. */
  datatype OpusTrim = OpusTrim(sampleCount: int, prevGranulepos: int)

  /**
   * The end trim of `decodeAudio` as written. A packet with a granule
   * position at or before the previous one yields nothing. One whose
   * position falls inside its decoded samples sets the count to the samples
   * that lie past that position.
   */
  function OpusEndTrim(prev: int, granulepos: int, decoded: int): OpusTrim
  {
    if granulepos != -1 then
      if granulepos <= prev then OpusTrim(0, granulepos)
      else if granulepos < prev + decoded then OpusTrim(prev + decoded - granulepos, granulepos)
      else OpusTrim(decoded, granulepos)
    else OpusTrim(decoded, prev + decoded)
  }

  /**
   * The trimmed count is the number of samples past the end position, which
   * RFC 7845 section 4.4 says to discard, rather than the number before it:
   * a 960-sample packet ending 900 samples in keeps 60.
   */
  lemma OpusEndTrimKeepsExcess(prev: int, granulepos: int, decoded: int)
    requires granulepos != -1 && prev < granulepos < prev + decoded
    ensures OpusEndTrim(prev, granulepos, decoded).sampleCount == decoded - (granulepos - prev)
    ensures OpusEndTrim(0, 900, 960).sampleCount == 60
  {
  }

  /** The pre-skip consumed by a packet of `count` samples: all of it, or the whole packet. */
  function PreskipTaken(preskip: int, count: int): int
  {
    if preskip >= count then count else preskip
  }

  /** The Opus half of `decodeAudio`, for a decoded packet `p`. */
  function DecodeOpus(s: DecoderState, p: Packet): (DecoderState, bool)
    requires s.audio.layout.Some? && s.audio.layout.value.sampleRate != 0
  {
    var trim := OpusEndTrim(s.opus.prevPacketGranpos, p.granulepos, p.opusSamples);
    var count := trim.sampleCount;
    var skip := PreskipTaken(s.opus.preskip, count);
    var o := s.opus.(prevPacketGranpos := trim.prevGranulepos, preskip := s.opus.preskip - skip);
    if s.opus.preskip >= count then (s.(opus := o), false)
    else
      var layout := s.audio.layout.value;
      var ab := if s.audiobuf.granulepos != -1 then
                  var gp := s.audiobuf.granulepos + (count - skip);
                  s.audiobuf.(granulepos := gp, time := gp as real / layout.sampleRate as real)
                else s.audiobuf;
      (s.(opus := o, audiobuf := ab, audio := s.audio.(queued := Some(AudioOut(layout, count)))), true)
  }

  /** The Vorbis half of `decodeAudio`, for a synthesised packet `p`. */
  function DecodeVorbis(e: Env, s: DecoderState, p: Packet): (DecoderState, bool)
    requires s.audio.layout.Some?
  {
    var n := p.vorbisSamples;
    var ab := if s.audiobuf.granulepos != -1 then
                s.audiobuf.(granulepos := s.audiobuf.granulepos + n,
                            time := e.vorbisGranuleTime(s.audiobuf.granulepos + n))
              else s.audiobuf;
    (s.(audiobuf := ab, audio := s.audio.(queued := Some(AudioOut(s.audio.layout.value, n)))), true)
  }

  /** Take the next Opus packet, if any, and decode it. */
  function OpusAudioStep(s: DecoderState): (DecoderState, bool)
    requires s.audio.layout.Some? && s.audio.layout.value.sampleRate != 0
  {
    if s.opus.stream.packets == [] then (s, false)
    else
      var p := s.opus.stream.packets[0];
      var s1 := s.(opus := s.opus.(stream := DropPacket(s.opus.stream)));
      if p.opusSamples < 0 then (s1, false) else DecodeOpus(s1, p)
  }

  /** Take the next Vorbis packet, if any, and synthesise it. */
  function VorbisAudioStep(e: Env, s: DecoderState): (DecoderState, bool)
    requires s.audio.layout.Some?
  {
    if s.vorbis.stream.packets == [] then (s, false)
    else
      var p := s.vorbis.stream.packets[0];
      var s1 := s.(vorbis := s.vorbis.(stream := DropPacket(s.vorbis.stream)));
      if p.vorbisSynthesis == 0 then DecodeVorbis(e, s1, p) else (s1, false)
  }

  /** `decodeAudio`: the new state and whether an audio block was queued. */
  function DecodeAudioSpec(e: Env, s: DecoderState): (DecoderState, bool)
    requires AudioLayoutReady(s)
  {
    var s0 := s.(audiobuf := s.audiobuf.(ready := false));
    if s.opus.headers != 0 then OpusAudioStep(s0)
    else if s.vorbis.headers != 0 then VorbisAudioStep(e, s0)
    else (s0, false)
  }

  /** Decoding the next audio packet would queue a block. */
  predicate AudioWouldQueue(e: Env, s: DecoderState)
    requires AudioLayoutReady(s)
  {
    DecodeAudioSpec(e, s).1
  }

  /**
   * Opus trimming. A packet whose granule position is at or before the
   * previous one yields no samples. The previous position becomes the
   * packet's when it has one and otherwise advances by the decoded count.
   * The pre-skip drops by exactly min(pre-skip, count) and stays
   * non-negative. A block is queued exactly when samples remain after the
   * pre-skip, and it reports the count before the pre-skip was removed.
   */
  lemma OpusTrimming(e: Env, s: DecoderState)
    requires Inv(e, s) && s.appState == Decoding
    requires s.opus.headers != 0 && s.opus.stream.packets != [] && s.opus.stream.packets[0].opusSamples >= 0
    ensures var p := s.opus.stream.packets[0];
      var count := OpusEndTrim(s.opus.prevPacketGranpos, p.granulepos, p.opusSamples).sampleCount;
      var (s', ok) := DecodeAudioSpec(e, s);
      && Inv(e, s')
      && (p.granulepos != -1 && p.granulepos <= s.opus.prevPacketGranpos ==> count == 0 && !ok)
      && s'.opus.prevPacketGranpos ==
           (if p.granulepos != -1 then p.granulepos else s.opus.prevPacketGranpos + p.opusSamples)
      && s'.opus.preskip == s.opus.preskip - PreskipTaken(s.opus.preskip, count)
      && s'.opus.preskip >= 0
      && (ok <==> s.opus.preskip < count)
      && (ok ==> s'.audio.queued == Some(AudioOut(AudioLayout(s.opus.channels, OpusRate), count)))
      && (!ok ==> s'.audio.queued == s.audio.queued)
      && s'.opus.stream.packets == s.opus.stream.packets[1..]
  {
  }

  /**
   * Vorbis decoding. The next packet is always consumed. A block is queued
   * exactly when the library synthesises the packet, even one of no
   * samples; it has the stream's channels and rate and the synthesised
   * count, and a known granule position advances by that count. A failed
   * packet, or an empty stream, queues nothing and keeps the position.
   */
  lemma VorbisDecoding(e: Env, s: DecoderState)
    requires Inv(e, s) && s.appState == Decoding
    requires s.opus.headers == 0 && s.vorbis.headers != 0
    ensures var (s', ok) := DecodeAudioSpec(e, s);
      && Inv(e, s')
      && !s'.audiobuf.ready
      && s'.vorbis.stream.packets == (if s.vorbis.stream.packets == [] then [] else s.vorbis.stream.packets[1..])
      && (ok <==> s.vorbis.stream.packets != [] && s.vorbis.stream.packets[0].vorbisSynthesis == 0)
      && (ok ==>
            var n := s.vorbis.stream.packets[0].vorbisSamples;
            && s'.audio.queued == Some(AudioOut(AudioLayout(e.vorbis.channels, e.vorbis.rate), n))
            && (s.audiobuf.granulepos != -1 ==>
                  && s'.audiobuf.granulepos == s.audiobuf.granulepos + n
                  && s'.audiobuf.time == e.vorbisGranuleTime(s.audiobuf.granulepos + n)))
      && (!ok ==> s'.audio.queued == s.audio.queued)
      && (!ok || s.audiobuf.granulepos == -1 ==> s'.audiobuf.granulepos == s.audiobuf.granulepos)
  {
    DecodeAudioKeeps(e, s);
  }

  /** Decoding audio keeps the invariant. */
  lemma DecodeAudioKeeps(e: Env, s: DecoderState)
    requires Inv(e, s)
    requires s.appState == Decoding || (s.opus.headers == 0 && s.vorbis.headers == 0)
    ensures Inv(e, DecodeAudioSpec(e, s).0)
  {
    if s.opus.headers != 0 && s.opus.stream.packets != [] && s.opus.stream.packets[0].opusSamples >= 0 {
      OpusTrimming(e, s);
    }
  }

  /** `discardAudio`: drop the peeked audio packet from every claimed audio stream. */
  function DiscardAudioSpec(s: DecoderState): DecoderState
  {
    if s.audiobuf.ready then
      s.(vorbis := if s.vorbis.headers != 0 then s.vorbis.(stream := DropPacket(s.vorbis.stream)) else s.vorbis,
         opus := if s.opus.headers != 0 then s.opus.(stream := DropPacket(s.opus.stream)) else s.opus,
         audiobuf := s.audiobuf.(ready := false))
    else s
  }

  /**
   * With both Opus and Vorbis claimed, decoding reads only Opus, but a
   * discard drops a packet from both streams.
   */
  lemma DiscardAudioDropsBoth(s: DecoderState)
    requires s.audiobuf.ready && s.opus.headers != 0 && s.vorbis.headers != 0
    requires s.opus.stream.packets != [] && s.vorbis.stream.packets != []
    ensures DiscardAudioSpec(s).opus.stream.packets == s.opus.stream.packets[1..]
    ensures DiscardAudioSpec(s).vorbis.stream.packets == s.vorbis.stream.packets[1..]
    ensures !DiscardAudioSpec(s).audiobuf.ready
  {
  }

  // ---------------------------------------------------------------------
  // process
  // ---------------------------------------------------------------------

  /** The state after `process` took the next page, when it needed one, and queued it. */
  function TakePage(s: DecoderState): DecoderState
    requires s.needData ==> s.sync != [] && s.sync[0].PageOut?
  {
    if s.needData then Route(s.(sync := s.sync[1..]), s.sync[0].page) else s
  }

  /**
   * `process`: the new state and the answer. Before any input it answers
   * false. When data is needed it takes the next page and queues it, answers
   * false when there is none, and answers true without dispatching on a loss
   * of synchronisation. It then runs the step of the current phase.
   */
  function ProcessSpec(e: Env, s: DecoderState): (DecoderState, bool)
    requires Inv(e, s)
  {
    if !s.buffersReceived then (s, false)
    else if s.needData && s.sync == [] then (s, false)
    else if s.needData && s.sync[0].SyncLost? then (s.(sync := s.sync[1..]), true)
    else
      var s1 := TakePage(s);
      match s.appState
      case Begin => (ProcessBeginSpec(s1, s.sync[0].page), true)
      case Headers => (ProcessHeadersSpec(e, s1), true)
      case Decoding => (ProcessDecodingSpec(e, s1), true)
  }

  /** A page is taken from the buffer, or none is needed, and the phase step runs. */
  predicate Dispatches(s: DecoderState)
  {
    s.buffersReceived && (s.needData ==> s.sync != [] && s.sync[0].PageOut?)
  }

  /**
   * `process` answers false before any input and when no page is buffered.
   * It consumes a loss of synchronisation and answers true without
   * dispatching. Otherwise it dispatches and answers true. It keeps the
   * invariant, and the phase only moves forward.
   */
  lemma ProcessOutcome(e: Env, s: DecoderState)
    requires Inv(e, s) && !s.exited
    ensures var (s', r) := ProcessSpec(e, s);
      && Inv(e, s')
      && (!s.buffersReceived ==> s' == s && !r)
      && (s.buffersReceived && s.needData && s.sync == [] ==> s' == s && !r)
      && (s.buffersReceived && s.needData && s.sync != [] && s.sync[0].SyncLost? ==>
            s' == s.(sync := s.sync[1..]) && r)
      && (Dispatches(s) ==> r)
      && (s.appState == Headers ==> s'.appState != Begin)
      && (s.appState == Decoding ==> s'.appState == Decoding)
  {
    if Dispatches(s) {
      if s.needData {
        RouteKeeps(e, s.(sync := s.sync[1..]), s.sync[0].page);
      }
      var s1 := TakePage(s);
      match s.appState
      case Begin =>
        BeginKeeps(e, s1, s.sync[0].page);
      case Headers =>
        HeadersToDecoding(e, s1);
      case Decoding =>
        DecodingPeek(e, s1);
    }
  }

  /**
   * Once decoding, `process` never changes the header counters, the
   * processing answers or the layouts.
   */
  lemma NegotiationFrozenInDecoding(e: Env, s: DecoderState)
    requires Inv(e, s) && s.appState == Decoding
    ensures var s' := ProcessSpec(e, s).0;
      && s'.appState == Decoding
      && ClaimsOf(s') == ClaimsOf(s)
      && s'.theora.headers == s.theora.headers && s'.theora.processingHeaders == s.theora.processingHeaders
      && s'.vorbis.headers == s.vorbis.headers && s'.opus.headers == s.opus.headers
      && s'.skeleton == s.skeleton
      && s'.video.layout == s.video.layout && s'.audio.layout == s.audio.layout
  {
    if Dispatches(s) {
      if s.needData {
        RouteKeeps(e, s.(sync := s.sync[1..]), s.sync[0].page);
      }
      DecodingPeek(e, TakePage(s));
    }
  }

  /**
   * A Skeleton stream whose queued packets carry no end-of-stream flag
   * blocks negotiation. Its later pages are never routed to it, so
   * `skeletonDone` can never be set.
   */
  predicate SkeletonStalled(s: DecoderState)
  {
    && s.appState == Headers
    && s.skeleton.headers != 0
    && !s.skeleton.done
    && forall i :: 0 <= i < |s.skeleton.stream.packets| ==> !s.skeleton.stream.packets[i].eos
  }

  /**
   * A stalled negotiation stays stalled through `process`, `receiveInput`
   * and flushing, so DECODING is never reached.
   */
  lemma SkeletonStallPersists(e: Env, s: DecoderState, size: int, data: seq<SyncResult>)
    requires Inv(e, s) && !s.exited && SkeletonStalled(s)
    ensures SkeletonStalled(ProcessSpec(e, s).0)
    ensures ProcessSpec(e, s).0.appState != Decoding
    ensures SkeletonStalled(ReceiveInputSpec(s, size, data))
    ensures SkeletonStalled(FlushSpec(s))
  {
    if Dispatches(s) {
      RouteKeeps(e, s.(sync := s.sync[1..]), s.sync[0].page);
      var k := s.skeleton;
      var k' := SkeletonPass(k);
      if k.stream.packets != [] {
        forall i | 0 <= i < |k'.stream.packets|
          ensures !k'.stream.packets[i].eos
        {
          assert k'.stream.packets[i] == k.stream.packets[i + 1];
        }
      }
    }
    FlushKeeps(e, s);
  }

  // ---------------------------------------------------------------------
  // Flushing
  // ---------------------------------------------------------------------

  /** Empty a claimed stream's queue: `while (ogg_stream_packetout(...))`. */
  function Drained(claimed: bool, st: LogicalStream): LogicalStream
  {
    if claimed then st.(packets := []) else st
  }

  /** `flushBuffers`. */
  function FlushBuffersSpec(s: DecoderState): DecoderState
  {
    var d := DrainSync(s);
    d.(theora := d.theora.(stream := Drained(d.theora.headers != 0, d.theora.stream)),
       vorbis := d.vorbis.(stream := Drained(d.vorbis.headers != 0, d.vorbis.stream)),
       opus := d.opus.(stream := Drained(d.opus.headers != 0, d.opus.stream)),
       sync := [],
       videobuf := VideoBuffering(false, -1, -1.0, -1, -1.0),
       audiobuf := AudioBuffering(false, -1, -1.0),
       needData := true)
  }

  /** `Decoder::flush`: flushBuffers, then discardFrame and discardAudio. */
  function FlushSpec(s: DecoderState): DecoderState
  {
    DiscardAudioSpec(DiscardFrameSpec(FlushBuffersSpec(s)))
  }

  /**
   * Flushing empties the page buffer and the Theora, Vorbis and Opus queues.
   * It clears both ready flags, sets every granule position and time to -1
   * and requests data. It leaves the phase, the header counters, the layouts,
   * the queued buffers, the Skeleton stream and the serial numbers as they
   * were. The discards that follow consume nothing, and flushing twice is
   * flushing once.
   */
  lemma FlushKeeps(e: Env, s: DecoderState)
    requires Inv(e, s)
    ensures var f := FlushSpec(s);
      && Inv(e, f)
      && f == FlushBuffersSpec(s)
      && f.sync == []
      && f.theora == s.theora.(stream := LogicalStream(s.theora.stream.serial, []))
      && f.vorbis == s.vorbis.(stream := LogicalStream(s.vorbis.stream.serial, []))
      && f.opus == s.opus.(stream := LogicalStream(s.opus.stream.serial, []))
      && f.skeleton == s.skeleton
      && f.videobuf == VideoBuffering(false, -1, -1.0, -1, -1.0)
      && f.audiobuf == AudioBuffering(false, -1, -1.0)
      && f.needData
      && f.appState == s.appState && f.buffersReceived == s.buffersReceived && f.exited == s.exited
      && f.video == s.video && f.audio == s.audio
      && FlushSpec(f) == f
  {
    DrainSyncKeeps(e, s);
  }

  // ---------------------------------------------------------------------
  // Index queries
  // ---------------------------------------------------------------------

  /** `getSegmentLength`. */
  function SegmentLength(e: Env, s: DecoderState): int
  {
    if s.skeleton.headers != 0 then e.skeleton.segmentLength else -1
  }

  /** The streams `getDuration` asks about: Theora, Opus, Vorbis, those claimed. */
  function DurationSerials(s: DecoderState): seq<int>
  {
    (if s.theora.headers != 0 then [s.theora.stream.serial] else [])
    + (if s.opus.headers != 0 then [s.opus.stream.serial] else [])
    + (if s.vorbis.headers != 0 then [s.vorbis.stream.serial] else [])
  }

  /** The streams `getKeypointOffset` asks about: Theora alone if claimed, else Opus and Vorbis. */
  function KeypointSerials(s: DecoderState): seq<int>
  {
    if s.theora.headers != 0 then [s.theora.stream.serial]
    else (if s.opus.headers != 0 then [s.opus.stream.serial] else [])
         + (if s.vorbis.headers != 0 then [s.vorbis.stream.serial] else [])
  }

  /** `getKeypointOffset`. */
  function KeypointOffset(e: Env, s: DecoderState, timeMs: int): int
  {
    if s.skeleton.headers != 0 then e.skeleton.keypointOffset(KeypointSerials(s), timeMs) else -1
  }

  /**
   * The running minimum of `getDuration`, with -1 meaning "none yet": each
   * value replaces the minimum when the minimum is -1 or the value is smaller.
   */
  function EarliestOf(xs: seq<real>): real
    decreases |xs|
  {
    if xs == [] then -1.0
    else
      var m := EarliestOf(xs[..|xs| - 1]);
      var x := xs[|xs| - 1];
      if m == -1.0 || x < m then x else m
  }

  /** The running maximum of `getDuration`, with -1 meaning "none yet". */
  function LatestOf(xs: seq<real>): real
    decreases |xs|
  {
    if xs == [] then -1.0
    else
      var m := LatestOf(xs[..|xs| - 1]);
      var x := xs[|xs| - 1];
      if m == -1.0 || x > m then x else m
  }

  /** The first-sample time of each serial, in order. */
  function FirstTimes(e: Env, serials: seq<int>): seq<real>
  {
    seq(|serials|, i requires 0 <= i < |serials| => e.skeleton.firstSampleTime(serials[i]))
  }

  /** The last-sample time of each serial, in order. */
  function LastTimes(e: Env, serials: seq<int>): seq<real>
  {
    seq(|serials|, i requires 0 <= i < |serials| => e.skeleton.lastSampleTime(serials[i]))
  }

  /** `getDuration`: latest last-sample time minus earliest first-sample time, -1 without Skeleton. */
  function Duration(e: Env, s: DecoderState): real
  {
    if s.skeleton.headers != 0 then
      var serials := DurationSerials(s);
      LatestOf(LastTimes(e, serials)) - EarliestOf(FirstTimes(e, serials))
    else -1.0
  }

  /** When no value is -1, the running minimum is the minimum. */
  lemma {:induction false} EarliestIsMinimum(xs: seq<real>)
    requires xs != [] && forall i :: 0 <= i < |xs| ==> xs[i] != -1.0
    ensures exists i :: 0 <= i < |xs| && EarliestOf(xs) == xs[i]
    ensures forall i :: 0 <= i < |xs| ==> EarliestOf(xs) <= xs[i]
    decreases |xs|
  {
    var init := xs[..|xs| - 1];
    if init != [] {
      EarliestIsMinimum(init);
      var j :| 0 <= j < |init| && EarliestOf(init) == init[j];
      assert init[j] == xs[j];
      if xs[|xs| - 1] < EarliestOf(init) {
        assert EarliestOf(xs) == xs[|xs| - 1];
      } else {
        assert EarliestOf(xs) == xs[j];
      }
      forall i | 0 <= i < |xs| ensures EarliestOf(xs) <= xs[i] {
        if i < |xs| - 1 {
          assert xs[i] == init[i];
        }
      }
    } else {
      assert EarliestOf(xs) == xs[0];
    }
  }

  /** When no value is -1, the running maximum is the maximum. */
  lemma {:induction false} LatestIsMaximum(xs: seq<real>)
    requires xs != [] && forall i :: 0 <= i < |xs| ==> xs[i] != -1.0
    ensures exists i :: 0 <= i < |xs| && LatestOf(xs) == xs[i]
    ensures forall i :: 0 <= i < |xs| ==> LatestOf(xs) >= xs[i]
    decreases |xs|
  {
    var init := xs[..|xs| - 1];
    if init != [] {
      LatestIsMaximum(init);
      var j :| 0 <= j < |init| && LatestOf(init) == init[j];
      assert init[j] == xs[j];
      if xs[|xs| - 1] > LatestOf(init) {
        assert LatestOf(xs) == xs[|xs| - 1];
      } else {
        assert LatestOf(xs) == xs[j];
      }
      forall i | 0 <= i < |xs| ensures LatestOf(xs) >= xs[i] {
        if i < |xs| - 1 {
          assert xs[i] == init[i];
        }
      }
    } else {
      assert LatestOf(xs) == xs[0];
    }
  }

  /**
   * All three index queries answer -1 when no Skeleton stream was claimed.
   * The keypoint query names the Theora stream alone when there is one,
   * else the Opus and Vorbis streams. A Skeleton file with no audio or video
   * stream claimed has duration 0.
   */
  lemma IndexFallbacks(e: Env, s: DecoderState, timeMs: int)
    ensures s.skeleton.headers == 0 ==> SegmentLength(e, s) == -1
    ensures s.skeleton.headers == 0 ==> Duration(e, s) == -1.0
    ensures s.skeleton.headers == 0 ==> KeypointOffset(e, s, timeMs) == -1
    ensures s.skeleton.headers != 0 ==> KeypointOffset(e, s, timeMs) == e.skeleton.keypointOffset(KeypointSerials(s), timeMs)
    ensures s.theora.headers != 0 ==> KeypointSerials(s) == [s.theora.stream.serial]
    ensures s.theora.headers == 0 ==> KeypointSerials(s) == DurationSerials(s)
    ensures (s.skeleton.headers != 0 && s.theora.headers == 0 && s.vorbis.headers == 0 && s.opus.headers == 0) ==> Duration(e, s) == 0.0
  {
  }

  /**
   * With Skeleton and at least one audio or video stream, and no sample time
   * that happens to equal -1, the duration is the latest last-sample time
   * minus the earliest first-sample time over those streams.
   */
  lemma DurationSpansStreams(e: Env, s: DecoderState)
    requires s.skeleton.headers != 0 && DurationSerials(s) != []
    requires forall i :: 0 <= i < |DurationSerials(s)| ==> e.skeleton.firstSampleTime(DurationSerials(s)[i]) != -1.0
    requires forall i :: 0 <= i < |DurationSerials(s)| ==> e.skeleton.lastSampleTime(DurationSerials(s)[i]) != -1.0
    ensures var ss := DurationSerials(s);
      exists i, j :: 0 <= i < |ss| && 0 <= j < |ss| &&
        Duration(e, s) == e.skeleton.lastSampleTime(ss[j]) - e.skeleton.firstSampleTime(ss[i])
    ensures var ss := DurationSerials(s);
      forall i, j :: 0 <= i < |ss| && 0 <= j < |ss| ==>
        Duration(e, s) >= e.skeleton.lastSampleTime(ss[j]) - e.skeleton.firstSampleTime(ss[i])
  {
    var serials := DurationSerials(s);
    forall k | 0 <= k < |serials|
      ensures FirstTimes(e, serials)[k] == e.skeleton.firstSampleTime(serials[k])
      ensures LastTimes(e, serials)[k] == e.skeleton.lastSampleTime(serials[k])
    {
    }
    EarliestIsMinimum(FirstTimes(e, serials));
    LatestIsMaximum(LastTimes(e, serials));
    var i :| 0 <= i < |serials| && EarliestOf(FirstTimes(e, serials)) == FirstTimes(e, serials)[i];
    var j :| 0 <= j < |serials| && LatestOf(LastTimes(e, serials)) == LastTimes(e, serials)[j];
    assert Duration(e, s) == e.skeleton.lastSampleTime(serials[j]) - e.skeleton.firstSampleTime(serials[i]);
  }

  // ---------------------------------------------------------------------
  // The decoder object
  // ---------------------------------------------------------------------

  class Decoder {
    /** The codec libraries' answers that do not belong to one packet. */
    const env: Env

    var appState: AppState
    var needData: bool
    var buffersReceived: bool
    var exited: bool
    var sync: seq<SyncResult>
    var theora: TheoraState
    var vorbis: VorbisState
    var opus: OpusState
    var skeleton: SkeletonState
    var videobuf: VideoBuffering
    var audiobuf: AudioBuffering
    var video: VideoOutput
    var audio: AudioOutput

    function Snapshot(): DecoderState
      reads this
    {
      DecoderState(appState, needData, buffersReceived, exited, sync,
                   theora, vorbis, opus, skeleton, videobuf, audiobuf, video, audio)
    }

    ghost predicate Valid()
      reads this
    {
      EnvOk(env) && Inv(env, Snapshot())
    }

    /**
     * `impl()`: BEGIN, data needed, nothing received, no stream claimed, the
     * buffered times and positions at -1. `theoraProcessingHeaders`,
     * `vorbisProcessingHeaders`, the Opus fields, the stream serial numbers
     * and the two ready flags are left as they happen to be.
     */
    constructor (env: Env, theoraProcessingHeaders: int, vorbisProcessingHeaders: int,
                 opus: OpusState, frameReady: bool, audioReady: bool,
                 theoraSerial: int, vorbisSerial: int, skeletonSerial: int)
      requires EnvOk(env)
      ensures this.env == env
      ensures Valid() && !exited && !HeadersPending(Snapshot())
      ensures appState == Begin && needData && !buffersReceived && sync == []
      ensures theora == TheoraState(StreamInit(theoraSerial), 0, theoraProcessingHeaders, 0)
      ensures vorbis == VorbisState(StreamInit(vorbisSerial), 0, vorbisProcessingHeaders)
      ensures this.opus == opus.(stream := opus.stream.(packets := []), headers := 0)
      ensures skeleton == SkeletonState(StreamInit(skeletonSerial), 0, 0, false)
      ensures videobuf == VideoBuffering(false, -1, -1.0, -1, -1.0)
      ensures audiobuf == AudioBuffering(false, -1, -1.0)
      ensures video == VideoOutput(frameReady, None, None)
      ensures audio == AudioOutput(audioReady, None, None)
    {
      this.env := env;
      appState := Begin;
      needData := true;
      buffersReceived := false;
      exited := false;
      sync := [];
      theora := TheoraState(StreamInit(theoraSerial), 0, theoraProcessingHeaders, 0);
      vorbis := VorbisState(StreamInit(vorbisSerial), 0, vorbisProcessingHeaders);
      this.opus := opus.(stream := opus.stream.(packets := []), headers := 0);
      skeleton := SkeletonState(StreamInit(skeletonSerial), 0, 0, false);
      videobuf := VideoBuffering(false, -1, -1.0, -1, -1.0);
      audiobuf := AudioBuffering(false, -1, -1.0);
      video := VideoOutput(frameReady, None, None);
      audio := AudioOutput(audioReady, None, None);
    }

    function HasAudio(): bool
      reads this
    {
      audio.layout.Some?
    }

    function HasVideo(): bool
      reads this
    {
      video.layout.Some?
    }

    function IsAudioReady(): bool
      reads this
    {
      audio.audioReady
    }

    function IsFrameReady(): bool
      reads this
    {
      video.frameReady
    }

    function GetAudioLayout(): Option<AudioLayout>
      reads this
    {
      audio.layout
    }

    function GetFrameLayout(): Option<FrameLayout>
      reads this
    {
      video.layout
    }

    /**
     * Before DECODING there is neither audio nor video; in DECODING there is
     * video exactly when Theora was claimed and audio exactly when Opus or
     * Vorbis was.
     */
    lemma AvailabilityFollowsClaims()
      requires Valid()
      ensures appState != Decoding ==> !HasVideo() && !HasAudio()
      ensures appState == Decoding ==> (HasVideo() <==> theora.headers != 0)
      ensures appState == Decoding ==> (HasAudio() <==> opus.headers != 0 || vorbis.headers != 0)
      ensures HasVideo() ==> GetFrameLayout() == Some(LayoutOf(env.theora))
    {
    }

    /** `queue_page`. */
    method QueuePage(page: Page)
      modifies this
      ensures Snapshot() == Route(old(Snapshot()), page)
    {
      if theora.headers != 0 {
        theora := theora.(stream := PageIn(theora.stream, page));
      }
      if vorbis.headers != 0 {
        vorbis := vorbis.(stream := PageIn(vorbis.stream, page));
      }
      if opus.headers != 0 {
        opus := opus.(stream := PageIn(opus.stream, page));
      }
    }

    /** Route buffered pages until the buffer is empty or synchronisation is lost. */
    method DrainSyncPages()
      modifies this
      ensures Snapshot() == DrainSync(old(Snapshot()))
    {
      var draining := true;
      while draining && sync != []
        invariant draining ==> DrainSync(Snapshot()) == DrainSync(old(Snapshot()))
        invariant !draining ==> Snapshot() == DrainSync(old(Snapshot()))
        decreases |sync|
      {
        var item := sync[0];
        sync := sync[1..];
        match item
        case SyncLost =>
          draining := false;
        case PageOut(page) =>
          QueuePage(page);
      }
    }

    /**
     * `receiveInput`: `size` is the byte count of the buffer and `data` the
     * answers of `ogg_sync_pageout` that its bytes complete.
     */
    method ReceiveInput(size: int, data: seq<SyncResult>)
      requires Valid()
      modifies this
      ensures Snapshot() == ReceiveInputSpec(old(Snapshot()), size, data)
      ensures Valid()
    {
      ReceiveInputKeeps(env, Snapshot(), size, data);
      if size > 0 {
        buffersReceived := true;
        if appState == Decoding {
          DrainSyncPages();
        }
        sync := sync + data;
      }
    }

    /** `process`. */
    method Process() returns (r: bool)
      requires Valid() && !exited
      modifies this
      ensures (Snapshot(), r) == ProcessSpec(env, old(Snapshot()))
      ensures Valid()
    {
      ProcessOutcome(env, Snapshot());
      if !buffersReceived {
        return false;
      }
      var page: Option<Page> := None;
      if needData {
        if sync == [] {
          return false;
        }
        var item := sync[0];
        sync := sync[1..];
        if item.SyncLost? {
          return true;
        }
        page := Some(item.page);
        QueuePage(item.page);
      }
      assert Snapshot() == TakePage(old(Snapshot()));
      if appState == Begin {
        ProcessBegin(page.value);
      } else if appState == Headers {
        ProcessHeaders();
      } else {
        ProcessDecoding();
      }
      r := true;
    }

    /** `processBegin`, for the page just taken from the buffer. */
    method ProcessBegin(page: Page)
      modifies this
      ensures Snapshot() == ProcessBeginSpec(old(Snapshot()), page)
    {
      if !page.bos {
        appState := Headers;
        return;
      }
      var test := PageIn(StreamInit(page.serial), page);
      if test.packets == [] {
        return;
      }
      var packet := test.packets[0];
      if theora.headers == 0 {
        theora := theora.(processingHeaders := packet.theoraHeader);
        if theora.processingHeaders >= 0 {
          theora := theora.(stream := test, headers := 1);
          if theora.processingHeaders != 0 {
            theora := theora.(stream := DropPacket(theora.stream));
          }
          return;
        }
      }
      if vorbis.headers == 0 {
        vorbis := vorbis.(processingHeaders := packet.vorbisHeader);
        if vorbis.processingHeaders == 0 {
          vorbis := vorbis.(stream := DropPacket(test), headers := 1);
          return;
        }
      }
      if opus.headers == 0 && packet.opusHead.Some? {
        opus := OpusState(DropPacket(test), 1, packet.opusHead.value.channels, packet.opusHead.value.preskip, 0);
        return;
      }
      if skeleton.headers == 0 {
        skeleton := skeleton.(processingHeaders := packet.skeletonHeader);
        if skeleton.processingHeaders >= 0 {
          skeleton := skeleton.(stream := DropPacket(test), headers := 1, done := false);
        }
      }
    }

    /** `processHeaders`. */
    method ProcessHeaders()
      modifies this
      ensures Snapshot() == ProcessHeadersSpec(env, old(Snapshot()))
    {
      if HeadersPending(Snapshot()) {
        SkeletonHeader();
        TheoraHeader();
        var refused := VorbisHeader();
        if refused {
          exited := true;
          return;
        }
        OpusHeader();
      } else {
        CompleteHeaders();
      }
    }

    /** The Skeleton part of `processHeaders`. */
    method SkeletonHeader()
      modifies this
      ensures Snapshot() == old(Snapshot()).(skeleton := SkeletonPass(old(skeleton)))
    {
      if skeleton.headers != 0 && !skeleton.done && skeleton.stream.packets != [] {
        var packet := skeleton.stream.packets[0];
        skeleton := skeleton.(stream := DropPacket(skeleton.stream), processingHeaders := packet.skeletonHeader);
        if packet.eos {
          skeleton := skeleton.(done := true);
        } else {
          skeleton := skeleton.(done := false);
        }
      }
    }

    /** The Theora part of `processHeaders`. */
    method TheoraHeader()
      modifies this
      ensures Snapshot() == old(Snapshot()).(theora := TheoraPass(old(theora)))
    {
      if theora.headers != 0 && theora.processingHeaders != 0 && theora.stream.packets != [] {
        theora := theora.(processingHeaders := theora.stream.packets[0].theoraHeader);
        if theora.processingHeaders == 0 {
          theora := theora.(headers := 3);
        } else if theora.processingHeaders > 0 {
          theora := theora.(stream := DropPacket(theora.stream));
        }
      }
    }

    /** The Vorbis part of `processHeaders`; `refused` means the process exits. */
    method VorbisHeader() returns (refused: bool)
      modifies this
      ensures refused == VorbisRefuses(old(vorbis))
      ensures !refused ==> Snapshot() == old(Snapshot()).(vorbis := VorbisPass(old(vorbis)))
      ensures refused ==> Snapshot() == old(Snapshot()).(vorbis := old(vorbis).(
                processingHeaders := old(vorbis).stream.packets[0].vorbisHeader))
    {
      refused := false;
      if vorbis.headers != 0 && vorbis.headers < 3 && vorbis.stream.packets != [] {
        vorbis := vorbis.(processingHeaders := vorbis.stream.packets[0].vorbisHeader);
        if vorbis.processingHeaders == 0 {
          vorbis := vorbis.(headers := vorbis.headers + 1);
        } else {
          return true;
        }
        vorbis := vorbis.(stream := DropPacket(vorbis.stream));
      }
    }

    /** The Opus part of `processHeaders`. */
    method OpusHeader()
      modifies this
      ensures Snapshot() == old(Snapshot()).(opus := OpusPass(old(opus)))
    {
      if opus.headers != 0 && opus.headers < 2 {
        opus := opus.(headers := opus.headers + 1, stream := DropPacket(opus.stream));
      }
    }

    /** The end of `processHeaders`: layouts from the claimed streams, then DECODING. */
    method CompleteHeaders()
      modifies this
      ensures Snapshot() == FinishHeaders(env, old(Snapshot()))
    {
      if theora.headers != 0 {
        video := video.(layout := Some(LayoutOf(env.theora)));
      }
      if opus.headers != 0 {
        audio := audio.(layout := Some(AudioLayout(opus.channels, OpusRate)));
      } else if vorbis.headers != 0 {
        audio := audio.(layout := Some(AudioLayout(env.vorbis.channels, env.vorbis.rate)));
      }
      appState := Decoding;
    }

    /** `processDecoding`. */
    method ProcessDecoding()
      requires AudioLayoutReady(Snapshot())
      modifies this
      ensures Snapshot() == ProcessDecodingSpec(env, old(Snapshot()))
    {
      needData := false;
      if theora.headers != 0 && !videobuf.ready {
        PeekVideo();
      }
      if !audiobuf.ready {
        PeekAudio();
      }
    }

    /** The video half of `processDecoding`. */
    method PeekVideo()
      modifies this
      ensures Snapshot() == VideoPeek(env, old(Snapshot()))
      ensures audiobuf == old(audiobuf) && audio == old(audio) && opus == old(opus) && vorbis == old(vorbis)
    {
      if theora.stream.packets != [] {
        videobuf := videobuf.(ready := true);
        var packetGranule := theora.stream.packets[0].granulepos;
        if packetGranule < 0 {
          if videobuf.granulepos >= 0 {
            videobuf := videobuf.(granulepos := videobuf.granulepos + 1);
          }
        } else {
          videobuf := videobuf.(granulepos := packetGranule);
        }
        if videobuf.granulepos < 0 {
          var kg := KeyframeGranule(videobuf.granulepos, env.theora.keyframeGranuleShift);
          videobuf := videobuf.(keyframeGranulepos := kg,
                                time := env.theoraGranuleTime(videobuf.granulepos),
                                keyframeTime := env.theoraGranuleTime(kg));
        }
        video := video.(frameReady := true);
      } else {
        needData := true;
      }
    }

    /** The audio half of `processDecoding`. */
    method PeekAudio()
      requires AudioLayoutReady(Snapshot())
      modifies this
      ensures Snapshot() == AudioPeek(env, old(Snapshot()))
    {
      if opus.headers != 0 {
        if opus.stream.packets != [] {
          audiobuf := audiobuf.(ready := true);
          var gp := opus.stream.packets[0].granulepos;
          if gp != -1 {
            audiobuf := audiobuf.(granulepos := gp, time := gp as real / audio.layout.value.sampleRate as real);
          }
          audio := audio.(audioReady := true);
        } else {
          needData := true;
        }
      } else if vorbis.headers != 0 {
        if vorbis.stream.packets != [] {
          audiobuf := audiobuf.(ready := true);
          var gp := vorbis.stream.packets[0].granulepos;
          if gp != -1 {
            audiobuf := audiobuf.(granulepos := gp, time := env.vorbisGranuleTime(gp));
          }
          audio := audio.(audioReady := true);
        } else {
          needData := true;
        }
      }
    }

    /** `decodeFrame`; a frame must not be outstanding when one would be queued. */
    method DecodeFrame() returns (ok: bool)
      requires Valid() && appState == Decoding
      requires video.queued.Some? ==> !FrameWouldQueue(env, Snapshot())
      modifies this
      ensures (Snapshot(), ok) == DecodeFrameSpec(env, old(Snapshot()))
      ensures Valid()
    {
      DecodeFrameOutcome(env, Snapshot());
      if theora.stream.packets == [] {
        return false;
      }
      var packet := theora.stream.packets[0];
      theora := theora.(stream := DropPacket(theora.stream));
      videobuf := videobuf.(ready := false);
      ok := DecodeTheoraPacket(packet);
    }

    /** `decodeFrame` after the packet was handed to the library. */
    method DecodeTheoraPacket(packet: Packet) returns (ok: bool)
      requires EnvOk(env)
      requires packet.theoraDecode == 0 || packet.theoraDecode == DupFrame ==> video.queued.None?
      modifies this
      ensures (Snapshot(), ok) == FrameStep(env, old(Snapshot()), packet)
    {
      if packet.theoraDecode == 0 {
        var t := env.theoraGranuleTime(videobuf.granulepos);
        if t > 0.0 {
          videobuf := videobuf.(time := t);
        } else {
          videobuf := videobuf.(time := videobuf.time + FrameInterval(env));
        }
        theora := theora.(frames := theora.frames + 1);
        VideoWrite();
        ok := true;
      } else if packet.theoraDecode == DupFrame {
        videobuf := videobuf.(time := videobuf.time + FrameInterval(env));
        theora := theora.(frames := theora.frames + 1);
        VideoWrite();
        ok := true;
      } else {
        ok := false;
      }
    }

    /** `video_write`: queue the frame; none may be outstanding. */
    method VideoWrite()
      requires video.queued.None?
      modifies this
      ensures Snapshot() == old(Snapshot()).(video := old(video).(
                queued := Some(FrameBuffer(video.layout, videobuf.time, videobuf.keyframeTime))))
    {
      video := video.(queued := Some(FrameBuffer(video.layout, videobuf.time, videobuf.keyframeTime)));
    }

    /** `dequeueFrame`: hand over the queued frame and empty the slot. */
    method DequeueFrame() returns (frame: FrameBuffer)
      requires video.queued.Some?
      modifies this
      ensures frame == old(video.queued).value
      ensures Snapshot() == old(Snapshot()).(video := old(video).(queued := None))
    {
      frame := video.queued.value;
      video := video.(queued := None);
    }

    /** `discardFrame`. */
    method DiscardFrame()
      modifies this
      ensures Snapshot() == DiscardFrameSpec(old(Snapshot()))
    {
      if videobuf.ready {
        if theora.headers != 0 {
          theora := theora.(stream := DropPacket(theora.stream));
        }
        videobuf := videobuf.(ready := false);
      }
    }

    /** `decodeAudio`; a block must not be outstanding when one would be queued. */
    method DecodeAudio() returns (foundSome: bool)
      requires Valid()
      requires appState == Decoding || (opus.headers == 0 && vorbis.headers == 0)
      requires audio.queued.Some? ==> !AudioWouldQueue(env, Snapshot())
      modifies this
      ensures (Snapshot(), foundSome) == DecodeAudioSpec(env, old(Snapshot()))
      ensures Valid()
    {
      DecodeAudioKeeps(env, Snapshot());
      audiobuf := audiobuf.(ready := false);
      if opus.headers != 0 {
        foundSome := DecodeOpusAudio();
      } else if vorbis.headers != 0 {
        foundSome := DecodeVorbisAudio();
      } else {
        foundSome := false;
      }
    }

    /** The Opus branch of `decodeAudio`. */
    method DecodeOpusAudio() returns (foundSome: bool)
      requires audio.layout.Some? && audio.layout.value.sampleRate != 0
      modifies this
      ensures (Snapshot(), foundSome) == OpusAudioStep(old(Snapshot()))
    {
      foundSome := false;
      if opus.stream.packets != [] {
        var packet := opus.stream.packets[0];
        opus := opus.(stream := DropPacket(opus.stream));
        if packet.opusSamples >= 0 {
          foundSome := DecodeOpusPacket(packet);
        }
      }
    }

    /** The Vorbis branch of `decodeAudio`. */
    method DecodeVorbisAudio() returns (foundSome: bool)
      requires audio.layout.Some?
      modifies this
      ensures (Snapshot(), foundSome) == VorbisAudioStep(env, old(Snapshot()))
    {
      foundSome := false;
      if vorbis.stream.packets != [] {
        var packet := vorbis.stream.packets[0];
        vorbis := vorbis.(stream := DropPacket(vorbis.stream));
        if packet.vorbisSynthesis == 0 {
          foundSome := DecodeVorbisPacket(packet);
        }
      }
    }

    /** The Opus branch of `decodeAudio`, after the packet was decoded. */
    method DecodeOpusPacket(packet: Packet) returns (foundSome: bool)
      requires audio.layout.Some? && audio.layout.value.sampleRate != 0
      modifies this
      ensures (Snapshot(), foundSome) == DecodeOpus(old(Snapshot()), packet)
    {
      foundSome := false;
      var sampleCount := packet.opusSamples;
      var skip := opus.preskip;
      if packet.granulepos != -1 {
        if packet.granulepos <= opus.prevPacketGranpos {
          sampleCount := 0;
        } else {
          var endSample := opus.prevPacketGranpos + sampleCount;
          if packet.granulepos < endSample {
            sampleCount := endSample - packet.granulepos;
          }
        }
        opus := opus.(prevPacketGranpos := packet.granulepos);
      } else {
        opus := opus.(prevPacketGranpos := opus.prevPacketGranpos + sampleCount);
      }
      if skip >= sampleCount {
        skip := sampleCount;
      } else {
        foundSome := true;
        if audiobuf.granulepos != -1 {
          audiobuf := audiobuf.(granulepos := audiobuf.granulepos + (sampleCount - skip));
          audiobuf := audiobuf.(time := audiobuf.granulepos as real / audio.layout.value.sampleRate as real);
        }
        audio := audio.(queued := Some(AudioOut(audio.layout.value, sampleCount)));
      }
      opus := opus.(preskip := opus.preskip - skip);
    }

    /** The Vorbis branch of `decodeAudio`, after the packet was synthesised. */
    method DecodeVorbisPacket(packet: Packet) returns (foundSome: bool)
      requires audio.layout.Some?
      modifies this
      ensures (Snapshot(), foundSome) == DecodeVorbis(env, old(Snapshot()), packet)
    {
      foundSome := true;
      var sampleCount := packet.vorbisSamples;
      if audiobuf.granulepos != -1 {
        audiobuf := audiobuf.(granulepos := audiobuf.granulepos + sampleCount);
        audiobuf := audiobuf.(time := env.vorbisGranuleTime(audiobuf.granulepos));
      }
      audio := audio.(queued := Some(AudioOut(audio.layout.value, sampleCount)));
    }

    /** `dequeueAudio`: hand over the queued block and empty the slot. */
    method DequeueAudio() returns (block: AudioOut)
      requires audio.queued.Some?
      modifies this
      ensures block == old(audio.queued).value
      ensures Snapshot() == old(Snapshot()).(audio := old(audio).(queued := None))
    {
      block := audio.queued.value;
      audio := audio.(queued := None);
    }

    /** `discardAudio`. */
    method DiscardAudio()
      modifies this
      ensures Snapshot() == DiscardAudioSpec(old(Snapshot()))
    {
      if audiobuf.ready {
        if vorbis.headers != 0 {
          vorbis := vorbis.(stream := DropPacket(vorbis.stream));
        }
        if opus.headers != 0 {
          opus := opus.(stream := DropPacket(opus.stream));
        }
        audiobuf := audiobuf.(ready := false);
      }
    }

    /** `flushBuffers`. */
    method FlushBuffers()
      modifies this
      ensures Snapshot() == FlushBuffersSpec(old(Snapshot()))
    {
      DrainSyncPages();
      DrainTheora();
      DrainVorbis();
      DrainOpus();
      sync := [];
      videobuf := VideoBuffering(false, -1, -1.0, -1, -1.0);
      audiobuf := AudioBuffering(false, -1, -1.0);
      needData := true;
    }

    /** Take every packet out of the Theora stream, if claimed. */
    method DrainTheora()
      modifies this
      ensures Snapshot() == old(Snapshot()).(theora := old(theora).(stream := Drained(old(theora).headers != 0, old(theora).stream)))
    {
      if theora.headers != 0 {
        while theora.stream.packets != []
          invariant Snapshot() == old(Snapshot()).(theora := old(theora).(stream := theora.stream))
          invariant theora.stream.serial == old(theora).stream.serial
          decreases |theora.stream.packets|
        {
          theora := theora.(stream := DropPacket(theora.stream));
        }
      }
    }

    /** Take every packet out of the Vorbis stream, if claimed. */
    method DrainVorbis()
      modifies this
      ensures Snapshot() == old(Snapshot()).(vorbis := old(vorbis).(stream := Drained(old(vorbis).headers != 0, old(vorbis).stream)))
    {
      if vorbis.headers != 0 {
        while vorbis.stream.packets != []
          invariant Snapshot() == old(Snapshot()).(vorbis := old(vorbis).(stream := vorbis.stream))
          invariant vorbis.stream.serial == old(vorbis).stream.serial
          decreases |vorbis.stream.packets|
        {
          vorbis := vorbis.(stream := DropPacket(vorbis.stream));
        }
      }
    }

    /** Take every packet out of the Opus stream, if claimed. */
    method DrainOpus()
      modifies this
      ensures Snapshot() == old(Snapshot()).(opus := old(opus).(stream := Drained(old(opus).headers != 0, old(opus).stream)))
    {
      if opus.headers != 0 {
        while opus.stream.packets != []
          invariant Snapshot() == old(Snapshot()).(opus := old(opus).(stream := opus.stream))
          invariant opus.stream.serial == old(opus).stream.serial
          decreases |opus.stream.packets|
        {
          opus := opus.(stream := DropPacket(opus.stream));
        }
      }
    }

    /** `Decoder::flush`. */
    method Flush()
      requires Valid()
      modifies this
      ensures Snapshot() == FlushSpec(old(Snapshot()))
      ensures Valid()
    {
      FlushKeeps(env, Snapshot());
      FlushBuffers();
      DiscardFrame();
      DiscardAudio();
    }

    /** `getSegmentLength`. */
    function GetSegmentLength(): (r: int)
      reads this
      ensures skeleton.headers == 0 ==> r == -1
      ensures skeleton.headers != 0 ==> r == env.skeleton.segmentLength
    {
      SegmentLength(env, Snapshot())
    }

    /** `getKeypointOffset`. */
    function GetKeypointOffset(timeMs: int): (r: int)
      reads this
      ensures skeleton.headers == 0 ==> r == -1
      ensures skeleton.headers != 0 && theora.headers != 0 ==>
        r == env.skeleton.keypointOffset([theora.stream.serial], timeMs)
    {
      KeypointOffset(env, Snapshot(), timeMs)
    }

    /** `getDuration`. */
    method GetDuration() returns (r: real)
      ensures r == Duration(env, Snapshot())
      ensures skeleton.headers == 0 ==> r == -1.0
      ensures skeleton.headers != 0 && theora.headers == 0 && opus.headers == 0 && vorbis.headers == 0 ==> r == 0.0
    {
      if skeleton.headers == 0 {
        return -1.0;
      }
      var serials: seq<int> := [];
      if theora.headers != 0 {
        serials := serials + [theora.stream.serial];
      }
      if opus.headers != 0 {
        serials := serials + [opus.stream.serial];
      }
      if vorbis.headers != 0 {
        serials := serials + [vorbis.stream.serial];
      }
      assert serials == DurationSerials(Snapshot());
      var firstSample, lastSample := SampleExtremes(serials);
      r := lastSample - firstSample;
    }

    /** The loop of `getDuration` over the streams' first and last sample times. */
    method SampleExtremes(serials: seq<int>) returns (firstSample: real, lastSample: real)
      ensures firstSample == EarliestOf(FirstTimes(env, serials))
      ensures lastSample == LatestOf(LastTimes(env, serials))
    {
      ghost var firsts := FirstTimes(env, serials);
      ghost var lasts := LastTimes(env, serials);
      firstSample := -1.0;
      lastSample := -1.0;
      for i := 0 to |serials|
        invariant firstSample == EarliestOf(firsts[..i])
        invariant lastSample == LatestOf(lasts[..i])
      {
        assert firsts[..i + 1][..i] == firsts[..i];
        assert lasts[..i + 1][..i] == lasts[..i];
        var firstStreamSample := env.skeleton.firstSampleTime(serials[i]);
        if firstSample == -1.0 || firstStreamSample < firstSample {
          firstSample := firstStreamSample;
        }
        var lastStreamSample := env.skeleton.lastSampleTime(serials[i]);
        if lastSample == -1.0 || lastStreamSample > lastSample {
          lastSample := lastStreamSample;
        }
      }
      assert firsts[..|serials|] == firsts;
      assert lasts[..|serials|] == lasts;
    }
  }
}
