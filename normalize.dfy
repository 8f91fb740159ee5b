/**
 * Normalisation in web_demuxer.cpp: the portable packet, stream and media
 * descriptions built from the engine's records (gen_web_packet,
 * gen_web_stream, get_media_info's loop) and the small pure helpers they use.
 */
module Normalize {
  import opened Wrappers
  import opened Engine
  import Decimal

  datatype Tag = Tag(key: string, value: string)

  /** WebAVPacket */
  datatype WebPacket = WebPacket(
    stream_index: int,
    keyframe: int,
    timestamp: real,
    duration: real,
    size: int,
    data: seq<uint8>)

  /** WebAVStream */
  datatype WebStream = WebStream(
    index: int,
    id: int,
    codec_type: int,
    codec_type_string: string,
    codec_name: string,
    codec_string: string,
    profile: string,
    level: int,
    bit_rate: string,
    extradata_size: int,
    extradata: seq<uint8>,
    channels: int,
    sample_rate: int,
    sample_fmt: string,
    start_time: real,
    duration: real,
    nb_frames: string,
    mime_type: string,
    tags: seq<Tag>)

  /** WebMediaInfo */
  datatype MediaInfo = MediaInfo(
    format_name: string,
    start_time: real,
    duration: real,
    bit_rate: string,
    nb_streams: int,
    nb_chapters: int,
    flags: int,
    streams: seq<WebStream>)

  /** A value-initialised WebAVStream, as std::vector<WebAVStream>(n) creates them. */
  const DefaultStream: WebStream :=
    WebStream(0, 0, 0, "", "", "", "", 0, "", 0, [], 0, 0, "", 0.0, 0.0, "", "", [])

  /** The codec-string placeholder of streams that are not audio. */
  const Undefined: string := "undf"
  const OctetStream: string := "application/octet-stream"

  /** safe_str: a NULL C string reads as the empty string. */
  function SafeStr(s: CStr): (r: string)
    ensures s.None? ==> r == ""
    ensures s.Some? ==> r == s.value
  {
    s.GetOr("")
  }

  /** gen_rational_str: numerator, separator, denominator. */
  function GenRationalStr(q: Rational, sep: char): string
  {
    Decimal.IntToString(q.num) + [sep] + Decimal.IntToString(q.den)
  }

  lemma IntToStringChars(i: int)
    ensures forall k :: 0 <= k < |Decimal.IntToString(i)| ==>
      Decimal.IsDigit(Decimal.IntToString(i)[k]) || Decimal.IntToString(i)[k] == '-'
  {
  }

  /**
   * With a separator that is neither a digit nor a minus sign, the text of a
   * rational determines the rational.
   */
  lemma GenRationalStrInjective(a: Rational, b: Rational, sep: char)
    requires !Decimal.IsDigit(sep) && sep != '-'
    requires GenRationalStr(a, sep) == GenRationalStr(b, sep)
    ensures a == b
  {
    var sa, sb := Decimal.IntToString(a.num), Decimal.IntToString(b.num);
    var s := GenRationalStr(a, sep);
    IntToStringChars(a.num);
    IntToStringChars(b.num);
    Decimal.FirstIndexAfter(sa, sep, Decimal.IntToString(a.den));
    Decimal.FirstIndexAfter(sb, sep, Decimal.IntToString(b.den));
    assert sa == s[..|sa|] == sb;
    Decimal.IntToStringInjective(a.num, b.num);
    assert Decimal.IntToString(a.den) == s[|sa| + 1..] == Decimal.IntToString(b.den);
    Decimal.IntToStringInjective(a.den, b.den);
  }

  /** The six PCM codecs get_audio_mime_type reports as WAV. */
  predicate IsWavPcm(codec_id: int)
  {
    codec_id == AV_CODEC_ID_PCM_S16LE || codec_id == AV_CODEC_ID_PCM_S16BE
    || codec_id == AV_CODEC_ID_PCM_U16LE || codec_id == AV_CODEC_ID_PCM_U16BE
    || codec_id == AV_CODEC_ID_PCM_ALAW || codec_id == AV_CODEC_ID_PCM_MULAW
  }

  /** The seven compressed audio codecs with a MIME type of their own. */
  predicate HasOwnMime(codec_id: int)
  {
    codec_id == AV_CODEC_ID_MP3 || codec_id == AV_CODEC_ID_AAC || codec_id == AV_CODEC_ID_AC3
    || codec_id == AV_CODEC_ID_EAC3 || codec_id == AV_CODEC_ID_FLAC
    || codec_id == AV_CODEC_ID_VORBIS || codec_id == AV_CODEC_ID_OPUS
  }

  /** Every value get_audio_mime_type can return. */
  const AudioMimeTypes: set<string> :=
    {"audio/mpeg", "audio/aac", "audio/ac3", "audio/eac3", "audio/flac", "audio/vorbis",
     "audio/opus", "audio/wav", OctetStream}

  /** get_audio_mime_type */
  function AudioMimeType(codec_id: int): (m: string)
    ensures codec_id == AV_CODEC_ID_MP3 ==> m == "audio/mpeg"
    ensures codec_id == AV_CODEC_ID_AAC ==> m == "audio/aac"
    ensures codec_id == AV_CODEC_ID_AC3 ==> m == "audio/ac3"
    ensures codec_id == AV_CODEC_ID_EAC3 ==> m == "audio/eac3"
    ensures codec_id == AV_CODEC_ID_FLAC ==> m == "audio/flac"
    ensures codec_id == AV_CODEC_ID_VORBIS ==> m == "audio/vorbis"
    ensures codec_id == AV_CODEC_ID_OPUS ==> m == "audio/opus"
    ensures m == "audio/wav" <==> IsWavPcm(codec_id)
    ensures m == OctetStream <==> !IsWavPcm(codec_id) && !HasOwnMime(codec_id)
    ensures m in AudioMimeTypes
  {
    if codec_id == AV_CODEC_ID_MP3 then "audio/mpeg"
    else if codec_id == AV_CODEC_ID_AAC then "audio/aac"
    else if codec_id == AV_CODEC_ID_AC3 then "audio/ac3"
    else if codec_id == AV_CODEC_ID_EAC3 then "audio/eac3"
    else if codec_id == AV_CODEC_ID_FLAC then "audio/flac"
    else if codec_id == AV_CODEC_ID_VORBIS then "audio/vorbis"
    else if codec_id == AV_CODEC_ID_OPUS then "audio/opus"
    else if IsWavPcm(codec_id) then "audio/wav"
    else OctetStream
  }

  /** The packet's presentation time, else its decode time, else 0, in seconds. */
  function PacketTimestamp(p: AVPacket, tb: TimeBase): real
  {
    if p.pts != AV_NOPTS_VALUE then Seconds(p.pts, tb)
    else if p.dts != AV_NOPTS_VALUE then Seconds(p.dts, tb)
    else 0.0
  }

  /**
   * gen_web_packet. The keyframe field is flags & AV_PKT_FLAG_KEY; with the key
   * flag being bit 0, that is flags % 2 (Dafny's % never goes negative, which
   * matches the low bit of a two's-complement int).
   */
  function GenWebPacket(p: AVPacket, tb: TimeBase): (w: WebPacket)
    ensures w.stream_index == p.stream_index && w.size == p.size
    ensures p.pts != AV_NOPTS_VALUE ==> w.timestamp == Seconds(p.pts, tb)
    ensures p.pts == AV_NOPTS_VALUE && p.dts != AV_NOPTS_VALUE ==> w.timestamp == Seconds(p.dts, tb)
    ensures p.pts == AV_NOPTS_VALUE && p.dts == AV_NOPTS_VALUE ==> w.timestamp == 0.0
    ensures w.duration == Seconds(p.duration, tb)
    ensures w.keyframe == 0 || w.keyframe == 1
    ensures w.keyframe == 1 <==> p.flags % 2 == 1
    ensures p.size > 0 ==> |w.data| == p.size && w.data == p.data.value[..p.size]
    ensures p.size <= 0 ==> w.data == []
  {
    WebPacket(
      p.stream_index,
      p.flags % (2 * AV_PKT_FLAG_KEY),
      PacketTimestamp(p, tb),
      Seconds(p.duration, tb),
      p.size,
      if p.size > 0 then p.data.value[..p.size] else [])
  }

  /** A double converted to int64_t: the real number truncated toward zero. */
  function TruncToInt(x: real): (n: int)
    ensures x >= 0.0 ==> 0 <= n && n as real <= x < n as real + 1.0
    ensures x < 0.0 ==> n <= 0 && n as real - 1.0 < x <= n as real
  {
    if x >= 0.0 then x.Floor else -((-x).Floor)
  }

  /** The stream's duration in seconds, or the container's when the stream reports none. */
  function StreamDuration(s: Stream, fmt: FormatContext): real
  {
    if s.duration > 0 then Seconds(s.duration, s.time_base) else MicroSeconds(fmt.duration)
  }

  /**
   * The frame count gen_web_stream reports: the engine's, unless it is 0 and the
   * average frame rate has a denominator, in which case it is estimated from the
   * container duration as duration * num / (den * AV_TIME_BASE), truncated.
   */
  function FrameCount(s: Stream, fmt: FormatContext): (n: int)
    ensures s.nb_frames != 0 || s.avg_frame_rate.den == 0 ==> n == s.nb_frames
    ensures s.nb_frames == 0 && s.avg_frame_rate.den != 0 ==>
      var x := MicroSeconds(fmt.duration) * (s.avg_frame_rate.num as real / s.avg_frame_rate.den as real);
      (x >= 0.0 ==> n as real <= x < n as real + 1.0) && (x < 0.0 ==> n as real - 1.0 < x <= n as real)
  {
    var rate := s.avg_frame_rate;
    if s.nb_frames == 0 && rate.den != 0 then
      var x := (fmt.duration as real * rate.num as real) / (rate.den as real * AV_TIME_BASE as real);
      assert x == MicroSeconds(fmt.duration) * (rate.num as real / rate.den as real);
      TruncToInt(x)
    else
      s.nb_frames
  }

  /** The tags of a metadata dictionary, one per entry, in enumeration order. */
  function TagsOf(d: seq<Entry>): (t: seq<Tag>)
    ensures |t| == |d|
    ensures forall i :: 0 <= i < |d| ==> t[i] == Tag(SafeStr(d[i].key), SafeStr(d[i].value))
    decreases |d|
  {
    if d == [] then []
    else TagsOf(d[..|d| - 1]) + [Tag(SafeStr(d[|d| - 1].key), SafeStr(d[|d| - 1].value))]
  }

  /** The codec name: the descriptor's name, or "" when the codec has no descriptor. */
  function CodecName(lib: Lookups, codec_id: int): string
  {
    match lib.descriptorName(codec_id)
    case None => ""
    case Some(name) => SafeStr(name)
  }

  /** Every field gen_web_stream assigns before it enumerates the tags. */
  function AssignFields(lib: Lookups, init: WebStream, s: Stream, fmt: FormatContext): WebStream
  {
    var par := s.codecpar;
    var audio := par.codec_type == AVMEDIA_TYPE_AUDIO;
    init.(
      index := s.index,
      id := s.id,
      codec_type := par.codec_type,
      codec_type_string := SafeStr(lib.mediaTypeString(par.codec_type)),
      codec_name := CodecName(lib, par.codec_id),
      channels := if audio then par.nb_channels else init.channels,
      sample_rate := if audio then par.sample_rate else init.sample_rate,
      sample_fmt := if audio then SafeStr(lib.sampleFmtName(par.format)) else init.sample_fmt,
      mime_type := if audio then AudioMimeType(par.codec_id) else init.mime_type,
      codec_string := if audio then lib.audioCodecString(par) else Undefined,
      profile := SafeStr(lib.profileName(par.codec_id, par.profile)),
      level := par.level,
      bit_rate := Decimal.IntToString(par.bit_rate),
      extradata_size := par.extradata_size,
      extradata := if par.extradata_size > 0 then par.extradata[..par.extradata_size] else [],
      start_time := Seconds(s.start_time, s.time_base),
      duration := StreamDuration(s, fmt),
      nb_frames := Decimal.IntToString(FrameCount(s, fmt)))
  }

  /** The stream record gen_web_stream leaves behind when it starts from init. */
  function FillStream(lib: Lookups, init: WebStream, s: Stream, fmt: FormatContext): WebStream
  {
    AssignFields(lib, init, s, fmt).(tags := init.tags + TagsOf(s.metadata))
  }

  /**
   * The normalisation rules of gen_web_stream: the audio-only fields (and the
   * MIME type) keep init's values for other streams, whose codec string is
   * "undf"; the duration falls back to the container's; the frame count and
   * bit rate are printed in decimal; extradata is copied; the tags follow the
   * metadata entries one for one, in order, after any tags init already had.
   */
  lemma FillStreamRules(lib: Lookups, init: WebStream, s: Stream, fmt: FormatContext)
    ensures var w := FillStream(lib, init, s, fmt);
      && w.index == s.index && w.id == s.id && w.codec_type == s.codecpar.codec_type
      && (s.codecpar.codec_type == AVMEDIA_TYPE_AUDIO ==>
        w.codec_string == lib.audioCodecString(s.codecpar) && w.mime_type == AudioMimeType(s.codecpar.codec_id)
        && w.channels == s.codecpar.nb_channels && w.sample_rate == s.codecpar.sample_rate)
      && (s.codecpar.codec_type != AVMEDIA_TYPE_AUDIO ==>
        w.codec_string == Undefined && w.mime_type == init.mime_type
        && w.channels == init.channels && w.sample_rate == init.sample_rate && w.sample_fmt == init.sample_fmt)
      && (s.duration > 0 ==> w.duration == Seconds(s.duration, s.time_base))
      && (s.duration <= 0 ==> w.duration == MicroSeconds(fmt.duration))
      && w.start_time == Seconds(s.start_time, s.time_base)
      && Decimal.ParseInteger(w.nb_frames) == Some(FrameCount(s, fmt))
      && Decimal.ParseInteger(w.bit_rate) == Some(s.codecpar.bit_rate)
      && w.extradata_size == s.codecpar.extradata_size
      && |w.extradata| == (if s.codecpar.extradata_size > 0 then s.codecpar.extradata_size else 0)
      && w.extradata <= s.codecpar.extradata
      && |w.tags| == |init.tags| + |s.metadata| && w.tags[..|init.tags|] == init.tags
      && (forall i :: 0 <= i < |s.metadata| ==>
        w.tags[|init.tags| + i] == Tag(SafeStr(s.metadata[i].key), SafeStr(s.metadata[i].value)))
  {
    Decimal.IntToStringRoundTrip(FrameCount(s, fmt));
    Decimal.IntToStringRoundTrip(s.codecpar.bit_rate);
  }

  /** gen_web_stream: assigns the fields of web_stream, then appends one tag per metadata entry. */
  method GenWebStream(lib: Lookups, web_stream: WebStream, s: Stream, fmt: FormatContext) returns (w: WebStream)
    ensures w == FillStream(lib, web_stream, s, fmt)
  {
    w := AssignStreamFields(lib, web_stream, s, fmt);
    var tags := CollectTags(w.tags, s.metadata);
    w := w.(tags := tags);
  }

  /** The field assignments of gen_web_stream, the audio-only ones under the codec-type test. */
  method AssignStreamFields(lib: Lookups, web_stream: WebStream, s: Stream, fmt: FormatContext) returns (w: WebStream)
    ensures w == AssignFields(lib, web_stream, s, fmt)
  {
    var par := s.codecpar;
    w := web_stream.(
      index := s.index,
      id := s.id,
      codec_type := par.codec_type,
      codec_type_string := SafeStr(lib.mediaTypeString(par.codec_type)),
      codec_name := CodecName(lib, par.codec_id));
    if par.codec_type == AVMEDIA_TYPE_AUDIO {
      w := w.(
        channels := par.nb_channels,
        sample_rate := par.sample_rate,
        sample_fmt := SafeStr(lib.sampleFmtName(par.format)),
        codec_string := lib.audioCodecString(par),
        mime_type := AudioMimeType(par.codec_id));
    } else {
      w := w.(codec_string := Undefined);
    }
    w := w.(
      profile := SafeStr(lib.profileName(par.codec_id, par.profile)),
      level := par.level,
      bit_rate := Decimal.IntToString(par.bit_rate),
      extradata_size := par.extradata_size,
      extradata := if par.extradata_size > 0 then par.extradata[..par.extradata_size] else [],
      start_time := Seconds(s.start_time, s.time_base),
      duration := if s.duration > 0 then Seconds(s.duration, s.time_base) else MicroSeconds(fmt.duration),
      nb_frames := Decimal.IntToString(FrameCount(s, fmt)));
  }

  /** The tag loop of gen_web_stream: walks the dictionary with av_dict_get, appending one tag per entry. */
  method CollectTags(init: seq<Tag>, metadata: seq<Entry>) returns (tags: seq<Tag>)
    ensures tags == init + TagsOf(metadata)
  {
    tags := init;
    var tag := DictNext(metadata, None);
    while tag.Some?
      invariant tag.Some? ==> tag.value < |metadata|
      invariant tags == init + TagsOf(metadata[..if tag.Some? then tag.value else |metadata|])
      decreases |metadata| - (if tag.Some? then tag.value else |metadata|)
    {
      var e := metadata[tag.value];
      assert metadata[..tag.value + 1][..tag.value] == metadata[..tag.value];
      tags := tags + [Tag(SafeStr(e.key), SafeStr(e.value))];
      tag := DictNext(metadata, tag);
    }
    assert metadata[..|metadata|] == metadata;
  }

  /** get_media_info's result for an opened context. */
  function MediaInfoOf(lib: Lookups, fmt: FormatContext): (m: MediaInfo)
    ensures m.nb_streams == |m.streams| == |fmt.streams|
    ensures forall i :: 0 <= i < |fmt.streams| ==> m.streams[i] == FillStream(lib, DefaultStream, fmt.streams[i], fmt)
    ensures m.duration == MicroSeconds(fmt.duration) && m.start_time == MicroSeconds(fmt.start_time)
    ensures Decimal.ParseInteger(m.bit_rate) == Some(fmt.bit_rate)
  {
    Decimal.IntToStringRoundTrip(fmt.bit_rate);
    MediaInfo(
      fmt.format_name,
      MicroSeconds(fmt.start_time),
      MicroSeconds(fmt.duration),
      Decimal.IntToString(fmt.bit_rate),
      |fmt.streams|,
      fmt.nb_chapters,
      fmt.flags,
      seq(|fmt.streams|, i requires 0 <= i < |fmt.streams| => FillStream(lib, DefaultStream, fmt.streams[i], fmt)))
  }

  /** get_media_info's body: one default stream record per engine stream, filled in order. */
  method BuildMediaInfo(lib: Lookups, fmt: FormatContext) returns (m: MediaInfo)
    ensures m == MediaInfoOf(lib, fmt)
  {
    var num_streams := |fmt.streams|;
    var streams := seq(num_streams, _ => DefaultStream);
    for stream_index := 0 to num_streams
      invariant |streams| == num_streams
      invariant forall j :: 0 <= j < stream_index ==>
        streams[j] == FillStream(lib, DefaultStream, fmt.streams[j], fmt)
      invariant forall j :: stream_index <= j < num_streams ==> streams[j] == DefaultStream
    {
      var w := GenWebStream(lib, streams[stream_index], fmt.streams[stream_index], fmt);
      streams := streams[stream_index := w];
    }
    assert streams == MediaInfoOf(lib, fmt).streams;
    m := MediaInfo(
      fmt.format_name,
      MicroSeconds(fmt.start_time),
      MicroSeconds(fmt.duration),
      Decimal.IntToString(fmt.bit_rate),
      num_streams,
      fmt.nb_chapters,
      fmt.flags,
      streams);
  }

  /**
   * What the media description promises of every stream: its index is its
   * position; an audio stream carries a MIME type from the fixed table; any
   * other stream has the "undf" codec string and no MIME type.
   */
  lemma MediaInfoStreams(lib: Lookups, fmt: FormatContext, i: int)
    requires ValidFormat(fmt)
    requires 0 <= i < |fmt.streams|
    ensures var w := MediaInfoOf(lib, fmt).streams[i];
      && w.index == i
      && (w.codec_type == AVMEDIA_TYPE_AUDIO ==> w.mime_type in AudioMimeTypes)
      && (w.codec_type != AVMEDIA_TYPE_AUDIO ==> w.codec_string == Undefined && w.mime_type == "")
  {
    FillStreamRules(lib, DefaultStream, fmt.streams[i], fmt);
  }
}
