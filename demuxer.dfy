/**
 * The native bridge's entry points (web_demuxer.cpp): a registry of open
 * demuxer contexts keyed by integer handles, and the queries made through a
 * handle. Every error the bridge throws is a DemuxError here.
 */
module Demuxer {
  import opened Wrappers
  import opened Engine
  import opened Normalize
  import opened PacketLoops

  datatype DemuxError =
    | InvalidHandle      // "Invalid context handle"
    | StreamNotFound     // "Cannot find wanted stream in the input file"
    | SeekFailed         // "Cannot seek to the specified timestamp"
    | PacketNotFound     // "Failed to get av packet at timestamp"
    | AvioAllocFailed    // "Cannot allocate AVIOContext"
    | OpenInputFailed    // "Cannot open input source"
    | StreamInfoFailed   // "Cannot find stream information"

  /** What the engine makes of a new source: the first step that fails, or the opened context. */
  datatype Probe = AvioAllocFails | OpenInputFails | StreamInfoFails | Probed(fmt: FormatContext)

  /** A DemuxerContext: the engine's context, the I/O handler it reads through, its buffer size. */
  datatype Ctx = Ctx(fmt: FormatContext, io: object, bufferSize: int)

  /** A query's result together with the engine's context after it. */
  datatype Outcome<T> = Outcome(result: Result<T, DemuxError>, fmt: FormatContext)

  /** What read_av_packet returns, what it passed to sendAVPacket, and the context after it. */
  datatype ReadOutcome = ReadOutcome(result: Result<int, DemuxError>, calls: seq<SinkArg>, fmt: FormatContext)

  /**
   * get_av_packet on an opened context: the first packet of the best stream
   * at or after the position av_seek_frame finds for the timestamp.
   */
  function PacketQuery(f: FormatContext, mediaType: int, wanted: int, timestamp: real, seekFlag: int)
    : (o: Outcome<WebPacket>)
    requires ValidFormat(f)
    ensures var s := f.bestStream(mediaType, wanted);
      && (o.result == Err(StreamNotFound) <==> s < 0)
      && (o.result == Err(SeekFailed) <==>
           0 <= s && f.seekFrame(s, SeekTicks(timestamp, f.streams[s].time_base), seekFlag).None?)
    ensures o.result.Err? && o.result.error != PacketNotFound ==> o.fmt == f
    ensures o.fmt == f.(cursor := o.fmt.cursor)
    ensures o.result.Ok? ==>
      var s := f.bestStream(mediaType, wanted);
      var c := f.seekFrame(s, SeekTicks(timestamp, f.streams[s].time_base), seekFlag);
      var k := o.fmt.cursor - 1;
      && 0 <= s && c.Some? && c.value <= k < |f.packets|
      && f.packets[k].stream_index == s && f.packets[k].data.Some?
      && (forall j :: c.value <= j < k ==> f.packets[j].stream_index != s)
      && o.result.value == GenWebPacket(f.packets[k], f.streams[s].time_base)
    ensures o.result == Err(PacketNotFound) ==>
      var s := f.bestStream(mediaType, wanted);
      var c := f.seekFrame(s, SeekTicks(timestamp, f.streams[s].time_base), seekFlag);
      && 0 <= s && c.Some?
      && ((forall j :: c.value <= j < |f.packets| ==> f.packets[j].stream_index != s)
          || (1 <= o.fmt.cursor <= |f.packets| && f.packets[o.fmt.cursor - 1].data.None?))
    ensures var s := f.bestStream(mediaType, wanted);
      0 <= s && f.seekFrame(s, SeekTicks(timestamp, f.streams[s].time_base), seekFlag).Some? ==>
        var m := NextMatch(f.packets, f.seekFrame(s, SeekTicks(timestamp, f.streams[s].time_base), seekFlag).value, s);
        && (m.None? ==> o.result == Err(PacketNotFound))
        && (m.Some? ==> o.fmt.cursor == m.value + 1
                        && (o.result == Err(PacketNotFound) <==> f.packets[m.value].data.None?))
    ensures o.result.Err? ==> o.result.error in {StreamNotFound, SeekFailed, PacketNotFound}
  {
    var s := f.bestStream(mediaType, wanted);
    if s < 0 then Outcome(Err(StreamNotFound), f)
    else
      var tb := f.streams[s].time_base;
      match f.seekFrame(s, SeekTicks(timestamp, tb), seekFlag)
      case None => Outcome(Err(SeekFailed), f)
      case Some(c) =>
        match NextMatch(f.packets, c, s)
        case None => Outcome(Err(PacketNotFound), f.(cursor := if c < |f.packets| then |f.packets| else c))
        case Some(k) =>
          if f.packets[k].data.None? then Outcome(Err(PacketNotFound), f.(cursor := k + 1))
          else Outcome(Ok(GenWebPacket(f.packets[k], tb)), f.(cursor := k + 1))
  }

  /** Where read_av_packet starts reading: the seek position for a positive start, else the current cursor. */
  function ReadStart(f: FormatContext, s: int, start: real, seekFlag: int): Option<nat>
    requires 0 <= s < |f.streams|
  {
    if start > 0.0 then f.seekFrame(s, SeekTicks(start, f.streams[s].time_base), seekFlag) else Some(f.cursor)
  }

  /**
   * read_av_packet on an opened context, the sink answering replies(j) to
   * its j-th packet.
   */
  function ReadQuery(f: FormatContext, start: real, end: real, mediaType: int, wanted: int, seekFlag: int,
                     replies: nat -> int): (o: ReadOutcome)
    requires ValidFormat(f)
    ensures var s := f.bestStream(mediaType, wanted);
      && (o.result == Err(StreamNotFound) <==> s < 0)
      && (o.result == Err(SeekFailed) <==> 0 <= s && ReadStart(f, s, start, seekFlag).None?)
    ensures o.result.Err? ==> o.calls == [] && o.fmt == f
    ensures o.result.Ok? ==> o.result.value == 1
    ensures o.fmt == f.(cursor := o.fmt.cursor)
    ensures o.result.Ok? ==>
      var s := f.bestStream(mediaType, wanted);
      && |o.calls| >= 1 && o.calls[|o.calls| - 1] == Zero
      && (forall j :: 0 <= j < |o.calls| - 1 ==>
           o.calls[j].Data? && o.calls[j].packet.stream_index == s && !PastEnd(o.calls[j].packet, end))
      && (forall j :: 0 <= j < |o.calls| - 2 ==> replies(j) != 0)
      && ReadStart(f, s, start, seekFlag).value <= o.fmt.cursor
  {
    var s := f.bestStream(mediaType, wanted);
    if s < 0 then ReadOutcome(Err(StreamNotFound), [], f)
    else
      var tb := f.streams[s].time_base;
      match ReadStart(f, s, start, seekFlag)
      case None => ReadOutcome(Err(SeekFailed), [], f)
      case Some(c) =>
        var run := StreamRun(f.packets, c, s, tb, end, replies, 0);
        var calls := SinkCalls(run.delivered);
        SinkCallsOfRun(f.packets, c, s, tb, end, replies, calls);
        ReadOutcome(Ok(1), calls, f.(cursor := run.next))
  }

  /**
   * When the sink accepts everything and no packet of the stream is past the
   * end, read_av_packet sends every packet of the stream from where it starts
   * reading to the end of input, in order, then the closing 0.
   */
  lemma ReadDeliversAll(f: FormatContext, start: real, end: real, mediaType: int, wanted: int, seekFlag: int,
                        replies: nat -> int)
    requires ValidFormat(f)
    requires forall j :: 0 <= j ==> replies(j) != 0
    requires var s := f.bestStream(mediaType, wanted);
      0 <= s && ReadStart(f, s, start, seekFlag).Some? && ReadStart(f, s, start, seekFlag).value <= |f.packets|
      && NoneLate(f.packets, ReadStart(f, s, start, seekFlag).value, s, f.streams[s].time_base, end)
    ensures var s := f.bestStream(mediaType, wanted);
      var c := ReadStart(f, s, start, seekFlag).value;
      var o := ReadQuery(f, start, end, mediaType, wanted, seekFlag, replies);
      o.result == Ok(1) && o.fmt.cursor == |f.packets|
      && o.calls == SinkCalls(Sent(f.packets, c, |f.packets|, s, f.streams[s].time_base))
  {
    var s := f.bestStream(mediaType, wanted);
    var c := ReadStart(f, s, start, seekFlag).value;
    RunDeliversAll(f.packets, c, s, f.streams[s].time_base, end, replies, 0);
  }

  /** The table of open contexts (context_map) and the entry points that use it. */
  class Registry {
    /** The engine's lookup tables. */
    const lib: Lookups
    /** Open contexts by handle. */
    var contexts: map<int, Ctx>

    ghost predicate Valid()
      reads this
    {
      forall h :: h in contexts ==> h != 0 && ValidFormat(contexts[h].fmt)
    }

    constructor(lib: Lookups)
      ensures this.lib == lib && contexts == map[] && Valid()
    {
      this.lib := lib;
      contexts := map[];
    }

    /**
     * open_source. addr is the address the new DemuxerContext gets: never 0,
     * and not that of a context still open. probe is how far the engine gets
     * with the source. Only a fully opened context is registered.
     */
    method OpenSource(io: object, bufferSize: int, addr: int, probe: Probe) returns (r: Result<int, DemuxError>)
      requires Valid()
      requires addr != 0 && addr !in contexts
      requires probe.Probed? ==> ValidFormat(probe.fmt)
      modifies this
      ensures Valid()
      ensures probe.Probed? ==> r == Ok(addr) && contexts == old(contexts)[addr := Ctx(probe.fmt, io, bufferSize)]
      ensures probe.AvioAllocFails? ==> r == Err(AvioAllocFailed) && contexts == old(contexts)
      ensures probe.OpenInputFails? ==> r == Err(OpenInputFailed) && contexts == old(contexts)
      ensures probe.StreamInfoFails? ==> r == Err(StreamInfoFailed) && contexts == old(contexts)
    {
      match probe
      case AvioAllocFails => r := Err(AvioAllocFailed);
      case OpenInputFails => r := Err(OpenInputFailed);
      case StreamInfoFails => r := Err(StreamInfoFailed);
      case Probed(fmt) =>
        contexts := contexts[addr := Ctx(fmt, io, bufferSize)];
        r := Ok(addr);
    }

    /** close_source: forgets the handle; an unknown handle is ignored. */
    method CloseSource(h: int)
      requires Valid()
      modifies this
      ensures Valid()
      ensures contexts == old(contexts) - {h}
    {
      if h in contexts {
        contexts := contexts - {h};
      }
    }

    /** get_media_info */
    method GetMediaInfo(h: int) returns (r: Result<MediaInfo, DemuxError>)
      ensures h !in contexts ==> r == Err(InvalidHandle)
      ensures h in contexts ==> r == Ok(MediaInfoOf(lib, contexts[h].fmt))
    {
      if h !in contexts {
        return Err(InvalidHandle);
      }
      var m := BuildMediaInfo(lib, contexts[h].fmt);
      r := Ok(m);
    }

    /** get_av_packet: only the context's read position changes. */
    method GetAvPacket(h: int, mediaType: int, wanted: int, timestamp: real, seekFlag: int)
      returns (r: Result<WebPacket, DemuxError>)
      requires Valid()
      modifies this
      ensures Valid()
      ensures h !in old(contexts) ==> r == Err(InvalidHandle) && contexts == old(contexts)
      ensures h in old(contexts) ==>
        var o := PacketQuery(old(contexts)[h].fmt, mediaType, wanted, timestamp, seekFlag);
        r == o.result && contexts == old(contexts)[h := old(contexts)[h].(fmt := o.fmt)]
    {
      if h !in contexts {
        return Err(InvalidHandle);
      }
      var ctx := contexts[h];
      var f := ctx.fmt;
      var s := f.bestStream(mediaType, wanted);
      if s < 0 {
        return Err(StreamNotFound);
      }
      var tb := f.streams[s].time_base;
      var c := f.seekFrame(s, SeekTicks(timestamp, tb), seekFlag);
      if c.None? {
        return Err(SeekFailed);
      }
      var k, next := ScanForStream(f.packets, c.value, s);
      contexts := contexts[h := ctx.(fmt := f.(cursor := next))];
      if k.None? || f.packets[k.value].data.None? {
        return Err(PacketNotFound);
      }
      r := Ok(GenWebPacket(f.packets[k.value], tb));
    }

    /**
     * read_av_packet: streams packets to the sink, replies(j) being its answer
     * to the j-th; calls are the sendAVPacket calls in order.
     */
    method ReadAvPacket(h: int, start: real, end: real, mediaType: int, wanted: int, seekFlag: int,
                        replies: nat -> int) returns (r: Result<int, DemuxError>, calls: seq<SinkArg>)
      requires Valid()
      modifies this
      ensures Valid()
      ensures h !in old(contexts) ==> r == Err(InvalidHandle) && calls == [] && contexts == old(contexts)
      ensures h in old(contexts) ==>
        var o := ReadQuery(old(contexts)[h].fmt, start, end, mediaType, wanted, seekFlag, replies);
        r == o.result && calls == o.calls && contexts == old(contexts)[h := old(contexts)[h].(fmt := o.fmt)]
    {
      if h !in contexts {
        return Err(InvalidHandle), [];
      }
      var ctx := contexts[h];
      var f := ctx.fmt;
      var s := f.bestStream(mediaType, wanted);
      if s < 0 {
        return Err(StreamNotFound), [];
      }
      var tb := f.streams[s].time_base;
      var c := f.cursor;
      if start > 0.0 {
        var sought := f.seekFrame(s, SeekTicks(start, tb), seekFlag);
        if sought.None? {
          return Err(SeekFailed), [];
        }
        c := sought.value;
      }
      var delivered, next := StreamLoop(f.packets, c, s, tb, end, replies);
      calls := SinkCalls(delivered);
      contexts := contexts[h := ctx.(fmt := f.(cursor := next))];
      r := Ok(1);
    }
  }
}
