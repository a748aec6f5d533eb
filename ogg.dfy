/**
 * An abstract view of the Ogg container layer (RFC 3533) and of the Xiph
 * codec libraries the decoder calls.
 *
 * A page carries a serial number, the beginning-of-stream flag of section 6
 * of RFC 3533 and the complete packets it finishes. A logical stream is the
 * serial number it was created from and a queue of packets. The byte-level
 * page parser is replaced by the sequence of answers it gives: a page, or a
 * loss of synchronisation.
 *
 * The codec libraries are replaced by their answers. Every packet carries
 * what each library would reply when handed that packet; the decoder reads
 * the reply that belongs to the call it makes.
 */
module Ogg {
  import opened OgvTypes

  /** The fields `opus_process_header` reports for an Opus identification header. */
  datatype OpusHead = OpusHead(channels: int, preskip: nat)

  datatype Packet = Packet(
    /** Granule position; -1 when the page ends no packet here. */
    granulepos: int,
    /** The end-of-stream flag. */
    eos: bool,
    /** `th_decode_headerin`: > 0 another header follows, 0 first data packet, < 0 not Theora / bad header. */
    theoraHeader: int,
    /** `vorbis_synthesis_headerin`: 0 accepted. */
    vorbisHeader: int,
    /** `opus_process_header`: the decoded identification header, or None for NULL. */
    opusHead: Option<OpusHead>,
    /** `oggskel_decode_header`: >= 0 accepted. */
    skeletonHeader: int,
    /** `th_decode_packetin`: 0 new frame, TH_DUPFRAME duplicate, other values fail. */
    theoraDecode: int,
    /** `vorbis_synthesis`: 0 success. */
    vorbisSynthesis: int,
    /** `vorbis_synthesis_pcmout` after this packet's block: samples available. */
    vorbisSamples: nat,
    /** `opus_multistream_decode_float`: samples decoded, negative on error. */
    opusSamples: int)

  datatype Page = Page(serial: int, bos: bool, packets: seq<Packet>)

  /** One answer of `ogg_sync_pageout` that is not "need more data". */
  datatype SyncResult = PageOut(page: Page) | SyncLost

  datatype LogicalStream = LogicalStream(serial: int, packets: seq<Packet>)

  /** `ogg_stream_init`: an empty stream for a serial number. */
  function StreamInit(serial: int): LogicalStream
  {
    LogicalStream(serial, [])
  }

  /**
   * `ogg_stream_pagein`: a stream takes the packets of a page bearing its
   * own serial number and ignores every other page.
   */
  function PageIn(s: LogicalStream, page: Page): (r: LogicalStream)
    ensures r.serial == s.serial
    ensures page.serial == s.serial ==> r.packets == s.packets + page.packets
    ensures page.serial != s.serial ==> r == s
  {
    if page.serial == s.serial then s.(packets := s.packets + page.packets) else s
  }

  /** `ogg_stream_packetout` with the packet discarded: drop the head, if any. */
  function DropPacket(s: LogicalStream): (r: LogicalStream)
    ensures r.serial == s.serial
    ensures s.packets == [] ==> r == s
    ensures s.packets != [] ==> r.packets == s.packets[1..]
  {
    if s.packets == [] then s else s.(packets := s.packets[1..])
  }
}
