/**
 * The demultiplexing engine (FFmpeg) as the bridge sees it: plain records
 * for its streams and packets, a packet sequence with a read cursor for
 * av_read_frame, and uninterpreted oracles for the engine's own decisions
 * (av_find_best_stream, av_seek_frame) and for its lookup tables.
 */
module Engine {
  import opened Wrappers

  newtype uint8 = x: int | 0 <= x < 256

  /** A C string pointer: None is NULL. */
  type CStr = Option<string>

  const AVMEDIA_TYPE_AUDIO: int := 1
  const AVSEEK_SIZE: int := 0x10000
  /** FFERRTAG('E', 'O', 'F', ' ') */
  const AVERROR_EOF: int := -0x2046_4F45
  /** INT64_MIN, the engine's "no timestamp" marker */
  const AV_NOPTS_VALUE: int := -0x8000_0000_0000_0000
  const AV_TIME_BASE: int := 1000000
  const AV_PKT_FLAG_KEY: int := 1
  const AVSEEK_FLAG_BACKWARD: int := 1

  // Codec ids, as numbered in libavcodec/codec_id.h.
  const AV_CODEC_ID_PCM_S16LE: int := 0x10000
  const AV_CODEC_ID_PCM_S16BE: int := 0x10001
  const AV_CODEC_ID_PCM_U16LE: int := 0x10002
  const AV_CODEC_ID_PCM_U16BE: int := 0x10003
  const AV_CODEC_ID_PCM_MULAW: int := 0x10006
  const AV_CODEC_ID_PCM_ALAW: int := 0x10007
  const AV_CODEC_ID_MP3: int := 0x15001
  const AV_CODEC_ID_AAC: int := 0x15002
  const AV_CODEC_ID_AC3: int := 0x15003
  const AV_CODEC_ID_VORBIS: int := 0x15005
  const AV_CODEC_ID_FLAC: int := 0x1500c
  const AV_CODEC_ID_EAC3: int := 0x15028
  const AV_CODEC_ID_OPUS: int := 0x1503c

  datatype Rational = Rational(num: int, den: int)

  /** A stream time base: seconds per tick is num/den, both positive. */
  type TimeBase = q: Rational | q.num > 0 && q.den > 0 witness Rational(1, 1)

  /** ticks * av_q2d(tb), computed exactly. */
  function Seconds(ticks: int, tb: TimeBase): real
  {
    ticks as real * tb.num as real / tb.den as real
  }

  /** ticks in AV_TIME_BASE units (microseconds), in seconds. */
  function MicroSeconds(ticks: int): real
  {
    ticks as real / AV_TIME_BASE as real
  }

  /**
   * av_rescale_q(a, AV_TIME_BASE_Q, tb): a microseconds in ticks of tb, that is
   * a * tb.den / (AV_TIME_BASE * tb.num), rounded to the nearest integer with
   * halves away from zero (AV_ROUND_NEAR_INF).
   */
  function RescaleFromMicros(a: int, tb: TimeBase): (r: int)
    ensures var d := a * tb.den - r * (AV_TIME_BASE * tb.num);
      a >= 0 ==> -(AV_TIME_BASE * tb.num) <= 2 * d < AV_TIME_BASE * tb.num
    ensures var d := a * tb.den - r * (AV_TIME_BASE * tb.num);
      a < 0 ==> -(AV_TIME_BASE * tb.num) < 2 * d <= AV_TIME_BASE * tb.num
  {
    var b, c := tb.den, AV_TIME_BASE * tb.num;
    if a >= 0 then (a * b + c / 2) / c else -((-a * b + c / 2) / c)
  }

  datatype RawPacket = Packet(
    stream_index: int,
    flags: int,
    pts: int,
    dts: int,
    duration: int,
    size: int,
    data: Option<seq<uint8>>)

  /** An AVPacket whose data pointer, when size is positive, holds at least size bytes. */
  type AVPacket = p: RawPacket | p.size <= 0 || (p.data.Some? && p.size <= |p.data.value|)
    witness Packet(0, 0, 0, 0, 0, 0, None)

  datatype RawCodecPar = CodecPar(
    codec_type: int,
    codec_id: int,
    nb_channels: int,
    sample_rate: int,
    format: int,
    profile: int,
    level: int,
    bit_rate: int,
    extradata_size: int,
    extradata: seq<uint8>)

  /** AVCodecParameters whose extradata buffer holds at least extradata_size bytes. */
  type CodecPar = c: RawCodecPar | c.extradata_size <= 0 || c.extradata_size <= |c.extradata|
    witness CodecPar(0, 0, 0, 0, 0, 0, 0, 0, 0, [])

  /** One AVDictionaryEntry of a stream's metadata. */
  datatype Entry = Entry(key: CStr, value: CStr)

  datatype Stream = Stream(
    index: int,
    id: int,
    codecpar: CodecPar,
    time_base: TimeBase,
    start_time: int,
    duration: int,
    nb_frames: int,
    avg_frame_rate: Rational,
    metadata: seq<Entry>)

  /**
   * An opened AVFormatContext. packets are what successive av_read_frame calls
   * return from position cursor on; a read at cursor >= |packets| fails.
   * bestStream(type, wanted) is av_find_best_stream's answer (negative: none);
   * seekFrame(stream, ticks, flags) is the cursor av_seek_frame leaves when
   * asked for timestamp ticks of that stream, or None when the seek fails.
   */
  datatype FormatContext = FormatContext(
    format_name: string,
    start_time: int,
    duration: int,
    bit_rate: int,
    nb_chapters: int,
    flags: int,
    streams: seq<Stream>,
    packets: seq<AVPacket>,
    cursor: nat,
    bestStream: (int, int) -> int,
    seekFrame: (int, int, int) -> Option<nat>)

  /** What the engine guarantees of an opened context. */
  ghost predicate ValidFormat(f: FormatContext)
  {
    && (forall i :: 0 <= i < |f.streams| ==> f.streams[i].index == i)
    && (forall t, w :: f.bestStream(t, w) < |f.streams|)
  }

  /** The engine's lookup tables, which the bridge only consults. */
  datatype Lookups = Lookups(
    mediaTypeString: int -> CStr,        // av_get_media_type_string
    descriptorName: int -> Option<CStr>, // avcodec_descriptor_get(id), then its name
    sampleFmtName: int -> CStr,          // av_get_sample_fmt_name
    profileName: (int, int) -> CStr,     // avcodec_profile_name(id, profile)
    audioCodecString: CodecPar -> string) // set_audio_codec_string

  /**
   * av_dict_get(dict, "", prev, AV_DICT_IGNORE_SUFFIX): the entry after prev
   * (the first one when prev is NULL), since every key matches the empty prefix.
   */
  function DictNext(dict: seq<Entry>, prev: Option<nat>): (r: Option<nat>)
    ensures r.Some? ==> r.value < |dict|
    ensures prev.None? ==> (r.Some? <==> dict != [])
    ensures prev.Some? ==> (r.Some? <==> prev.value + 1 < |dict|)
    ensures r.Some? ==> r.value == (if prev.None? then 0 else prev.value + 1)
  {
    var next := if prev.None? then 0 else prev.value + 1;
    if next < |dict| then Some(next) else None
  }
}
