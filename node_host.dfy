/**
 * The Node.js host (seekeable-node/src/index.js): SeekeableNode, which opens a
 * remote file through the native bridge, and AVStream, the object-mode
 * readable stream that read_av_packet pushes packets into. The bridge is a
 * Demuxer.Registry shared by a SeekeableNode and the streams it creates.
 */
module NodeHost {
  import opened Wrappers
  import opened Engine
  import opened Normalize
  import opened PacketLoops
  import opened Demuxer
  import HttpIo

  /** The SeekeableError codes the host throws itself, or an error thrown by the bridge. */
  datatype HostError = SourceOpenFailed | Native(error: DemuxError)

  /** The plain object convertWasmAVPacketToJS builds. */
  datatype JsPacket = JsPacket(
    stream_index: int,
    codec_name: string,
    keyframe: int,
    timestamp: real,
    duration: real,
    size: int,
    data: seq<uint8>)

  /** The packet a converted object carries, without the codec name it adds. */
  function PacketOf(j: JsPacket): WebPacket
  {
    WebPacket(j.stream_index, j.keyframe, j.timestamp, j.duration, j.size, j.data)
  }

  /**
   * convertWasmAVPacketToJS: copies every field of the packet and adds the
   * codec name of its stream, or "unknown" when the media information has no
   * stream at that index (streams.get answers undefined).
   */
  function ConvertWasmAVPacketToJS(p: WebPacket, info: MediaInfo): (j: JsPacket)
    ensures PacketOf(j) == p
    ensures 0 <= p.stream_index < |info.streams| ==> j.codec_name == info.streams[p.stream_index].codec_name
    ensures !(0 <= p.stream_index < |info.streams|) ==> j.codec_name == "unknown"
  {
    var name := if 0 <= p.stream_index < |info.streams| then info.streams[p.stream_index].codec_name else "unknown";
    JsPacket(p.stream_index, name, p.keyframe, p.timestamp, p.duration, p.size, p.data)
  }

  /** The index of the first stream of media type t, or |streams| when there is none. */
  function FirstOfType(streams: seq<WebStream>, t: int): (k: nat)
    ensures k <= |streams|
    ensures forall j :: 0 <= j < k ==> streams[j].codec_type != t
    ensures k < |streams| ==> streams[k].codec_type == t
  {
    if streams == [] then 0
    else if streams[0].codec_type == t then 0
    else 1 + FirstOfType(streams[1..], t)
  }

  /** The MIME type createAVStream reports: that of the first stream of type t, else application/octet-stream. */
  function StreamMime(streams: seq<WebStream>, t: int): string
  {
    var k := FirstOfType(streams, t);
    if k < |streams| then streams[k].mime_type else OctetStream
  }

  /** The scan in createAVStream: the first stream of type mediaType gives the MIME type. */
  method SelectMimeType(streams: seq<WebStream>, mediaType: int) returns (mime: string)
    ensures mime == StreamMime(streams, mediaType)
  {
    mime := OctetStream;
    for i := 0 to |streams|
      invariant forall j :: 0 <= j < i ==> streams[j].codec_type != mediaType
      invariant mime == OctetStream
    {
      if streams[i].codec_type == mediaType {
        assert FirstOfType(streams, mediaType) == i;
        mime := streams[i].mime_type;
        return;
      }
    }
    assert FirstOfType(streams, mediaType) == |streams|;
  }

  /**
   * The MIME type of an audio stream created over an opened context is the
   * audio MIME type of the codec of the engine's first audio stream, or
   * application/octet-stream when the context has no audio stream.
   */
  lemma StreamMimeOfContext(lib: Lookups, fmt: FormatContext)
    requires ValidFormat(fmt)
    ensures var k := FirstOfType(MediaInfoOf(lib, fmt).streams, AVMEDIA_TYPE_AUDIO);
      && k <= |fmt.streams|
      && (forall j :: 0 <= j < k ==> fmt.streams[j].codecpar.codec_type != AVMEDIA_TYPE_AUDIO)
      && (k < |fmt.streams| ==> (fmt.streams[k].codecpar.codec_type == AVMEDIA_TYPE_AUDIO
            && StreamMime(MediaInfoOf(lib, fmt).streams, AVMEDIA_TYPE_AUDIO)
               == AudioMimeType(fmt.streams[k].codecpar.codec_id)))
      && (k == |fmt.streams| ==> StreamMime(MediaInfoOf(lib, fmt).streams, AVMEDIA_TYPE_AUDIO) == OctetStream)
  {
    var m := MediaInfoOf(lib, fmt);
    var k := FirstOfType(m.streams, AVMEDIA_TYPE_AUDIO);
    forall j | 0 <= j < k
      ensures fmt.streams[j].codecpar.codec_type != AVMEDIA_TYPE_AUDIO
    {
      FillStreamRules(lib, DefaultStream, fmt.streams[j], fmt);
    }
    if k < |fmt.streams| {
      FillStreamRules(lib, DefaultStream, fmt.streams[k], fmt);
    }
  }

  /** What an AVStream pushes: a packet, or null, which ends the stream. */
  datatype Chunk = Pkt(packet: WebPacket) | EndOfStream

  /** The chunks the sendAVPacket calls push: one per packet; the closing 0 pushes nothing. */
  function Chunks(calls: seq<SinkArg>): (c: seq<Chunk>)
    ensures |c| <= |calls|
  {
    if calls == [] then []
    else (if calls[0].Data? then [Pkt(calls[0].packet)] else []) + Chunks(calls[1..])
  }

  /** Calls that are all packets push exactly those packets, in order. */
  lemma {:induction false} ChunksOfPackets(calls: seq<SinkArg>)
    requires forall j :: 0 <= j < |calls| ==> calls[j].Data?
    ensures |Chunks(calls)| == |calls|
    ensures forall j :: 0 <= j < |calls| ==> Chunks(calls)[j] == Pkt(calls[j].packet)
  {
    if calls != [] {
      ChunksOfPackets(calls[1..]);
      assert Chunks(calls) == [Pkt(calls[0].packet)] + Chunks(calls[1..]);
    }
  }

  lemma {:induction false} ChunksAppend(a: seq<SinkArg>, b: seq<SinkArg>)
    ensures Chunks(a + b) == Chunks(a) + Chunks(b)
  {
    if a == [] {
      assert a + b == b;
    } else {
      var h := if a[0].Data? then [Pkt(a[0].packet)] else [];
      assert (a + b)[0] == a[0] && (a + b)[1..] == a[1..] + b;
      ChunksAppend(a[1..], b);
      assert Chunks(a + b) == h + (Chunks(a[1..]) + Chunks(b));
      assert Chunks(a) == h + Chunks(a[1..]);
    }
  }

  /** What sendAVPacket answers to the j-th packet of a read that starts with base chunks already pushed. */
  function PushReplies(accepts: nat -> bool, base: nat): nat -> int
  {
    (j: nat) => if accepts(base + j) then 1 else 0
  }

  /** The calls of a read_av_packet that succeeds push one packet per call but the closing 0. */
  lemma ChunksOfCalls(calls: seq<SinkArg>)
    requires |calls| >= 1 && calls[|calls| - 1] == Zero
    requires forall j :: 0 <= j < |calls| - 1 ==> calls[j].Data?
    ensures |Chunks(calls)| == |calls| - 1
    ensures forall j :: 0 <= j < |calls| - 1 ==> Chunks(calls)[j] == Pkt(calls[j].packet)
  {
    var init := calls[..|calls| - 1];
    assert calls == init + [Zero];
    ChunksAppend(init, [Zero]);
    assert Chunks([Zero]) == [];
    ChunksOfPackets(init);
  }

  /**
   * What one _read pushes before the end of the stream, when read_av_packet
   * succeeds: one packet per sendAVPacket call but the closing 0, each of the
   * selected stream and none past the end time; and push accepted every
   * packet but the last, so pushing stops at the first refusal.
   */
  lemma ReadPushes(f: FormatContext, start: real, end: real, mediaType: int, seekFlag: int,
                   accepts: nat -> bool, base: nat, o: ReadOutcome)
    requires ValidFormat(f)
    requires o == ReadQuery(f, start, end, mediaType, -1, seekFlag, PushReplies(accepts, base))
    ensures var c := Chunks(o.calls);
      o.result.Ok? ==>
        && |c| == |o.calls| - 1
        && (forall j :: 0 <= j < |c| ==>
             c[j].Pkt? && c[j].packet.stream_index == f.bestStream(mediaType, -1) && !PastEnd(c[j].packet, end))
        && (forall n :: base <= n < base + |c| - 1 ==> accepts(n))
  {
    if o.result.Ok? {
      ChunksOfCalls(o.calls);
      forall n | base <= n < base + |o.calls| - 2
        ensures accepts(n)
      {
        assert PushReplies(accepts, base)(n - base) != 0;
      }
    }
  }

  /**
   * AVStream. accepts(n) is what the readable's push answers for the n-th
   * chunk pushed (false once its buffer is full).
   */
  class AVStream {
    const registry: Registry
    const contextPtr: int
    const startTime: real
    const endTime: real
    const mediaType: int
    const mimeType: string
    const accepts: nat -> bool
    var reading: bool
    var finished: bool
    /** The chunks pushed so far, in order. */
    var pushed: seq<Chunk>
    /** The errors emitted so far. */
    var errors: seq<DemuxError>

    constructor(registry: Registry, contextPtr: int, startTime: real, endTime: real, mediaType: int,
                mimeType: string, accepts: nat -> bool)
      ensures this.registry == registry && this.contextPtr == contextPtr
      ensures this.startTime == startTime && this.endTime == endTime
      ensures this.mediaType == mediaType && this.mimeType == mimeType && this.accepts == accepts
      ensures !reading && !finished && pushed == [] && errors == []
    {
      this.registry := registry;
      this.contextPtr := contextPtr;
      this.startTime := startTime;
      this.endTime := endTime;
      this.mediaType := mediaType;
      this.mimeType := mimeType;
      this.accepts := accepts;
      reading := false;
      finished := false;
      pushed := [];
      errors := [];
    }

    /** sendAVPacket: 0 pushes nothing and answers 0; a packet is pushed, the answer being whether push accepted it. */
    method SendAVPacket(arg: SinkArg) returns (reply: int)
      modifies this
      ensures arg.Zero? ==> reply == 0 && pushed == old(pushed)
      ensures arg.Data? ==> pushed == old(pushed) + [Pkt(arg.packet)] && reply == (if accepts(|old(pushed)|) then 1 else 0)
      ensures reading == old(reading) && finished == old(finished) && errors == old(errors)
    {
      if arg.Zero? {
        return 0;
      }
      var canContinue := accepts(|pushed|);
      pushed := pushed + [Pkt(arg.packet)];
      reply := if canContinue then 1 else 0;
    }

    /**
     * The sendAVPacket calls of one read_av_packet, in order, every call but
     * the last being a packet; each packet is answered as read_av_packet was
     * told it would be.
     */
    method Replay(calls: seq<SinkArg>) returns (answers: seq<int>)
      requires forall j :: 0 <= j < |calls| - 1 ==> calls[j].Data?
      modifies this
      ensures pushed == old(pushed) + Chunks(calls)
      ensures |answers| == |calls|
      ensures forall j :: 0 <= j < |calls| && calls[j].Data? ==> answers[j] == PushReplies(accepts, |old(pushed)|)(j)
      ensures reading == old(reading) && finished == old(finished) && errors == old(errors)
    {
      answers := [];
      var i := 0;
      while i < |calls|
        invariant 0 <= i <= |calls| && |answers| == i
        invariant pushed == old(pushed) + Chunks(calls[..i])
        invariant i < |calls| ==> |pushed| == |old(pushed)| + i
        invariant forall j :: 0 <= j < i && calls[j].Data? ==> answers[j] == PushReplies(accepts, |old(pushed)|)(j)
        invariant reading == old(reading) && finished == old(finished) && errors == old(errors)
      {
        if i < |calls| - 1 {
          ChunksOfPackets(calls[..i]);
        }
        var reply := SendAVPacket(calls[i]);
        assert calls[..i + 1] == calls[..i] + [calls[i]];
        ChunksAppend(calls[..i], [calls[i]]);
        answers := answers + [reply];
        i := i + 1;
      }
      assert calls[..i] == calls;
    }

    /**
     * _read: unless the stream has finished or a read is under way, runs
     * read_av_packet once for the whole range with this stream as the sink,
     * emits the error it throws if any, marks the stream finished and pushes
     * the end of the stream.
     */
    method Read()
      requires registry.Valid()
      modifies this, registry
      ensures registry.Valid()
      ensures old(finished || reading) ==>
        pushed == old(pushed) && errors == old(errors) && finished == old(finished)
        && reading == old(reading) && registry.contexts == old(registry.contexts)
      ensures !old(finished || reading) && contextPtr !in old(registry.contexts) ==>
        pushed == old(pushed) + [EndOfStream] && errors == old(errors) + [InvalidHandle]
        && registry.contexts == old(registry.contexts)
      ensures !old(finished || reading) && contextPtr in old(registry.contexts) ==>
        var ctx := old(registry.contexts)[contextPtr];
        var o := ReadQuery(ctx.fmt, startTime, endTime, mediaType, -1, AVSEEK_FLAG_BACKWARD,
                           PushReplies(accepts, |old(pushed)|));
        && pushed == old(pushed) + Chunks(o.calls) + [EndOfStream]
        && errors == old(errors) + (if o.result.Err? then [o.result.error] else [])
        && registry.contexts == old(registry.contexts)[contextPtr := ctx.(fmt := o.fmt)]
      ensures !old(finished || reading) ==> finished && !reading
    {
      if finished || reading {
        return;
      }
      reading := true;
      var base := |pushed|;
      var replies := PushReplies(accepts, base);
      var r, calls := registry.ReadAvPacket(contextPtr, startTime, endTime, mediaType, -1, AVSEEK_FLAG_BACKWARD, replies);
      var answers := Replay(calls);
      if r.Err? {
        errors := errors + [r.error];
      }
      finished := true;
      pushed := pushed + [EndOfStream];
      reading := false;
    }
  }

  /** SeekeableNode, its native module being registry. */
  class SeekeableNode {
    const registry: Registry
    /** The open context's handle; 0 stands for null. */
    var contextPtr: int
    /** The buffer size of the last load; None before the first. */
    var bufferSize: Option<int>

    ghost predicate Valid()
      reads this, registry
    {
      registry.Valid() && (contextPtr != 0 ==> contextPtr in registry.contexts)
    }

    constructor(registry: Registry)
      requires registry.Valid()
      ensures this.registry == registry && contextPtr == 0 && bufferSize == None && Valid()
    {
      this.registry := registry;
      contextPtr := 0;
      bufferSize := None;
    }

    /** destroy: closes the open context, if any, and forgets it. */
    method Destroy()
      requires Valid()
      modifies this, registry
      ensures Valid() && contextPtr == 0 && bufferSize == old(bufferSize)
      ensures old(contextPtr) == 0 ==> registry.contexts == old(registry.contexts)
      ensures old(contextPtr) != 0 ==> registry.contexts == old(registry.contexts) - {old(contextPtr)}
    {
      if contextPtr != 0 {
        registry.CloseSource(contextPtr);
        contextPtr := 0;
      }
    }

    /**
     * load(url, bufferSize): destroys an open context first, then opens a new
     * one through a fresh NodeHttpIOHandler for url. addr is the address the
     * bridge gives the new context and probe how far the engine gets; any
     * failure of open_source is SOURCE_OPEN_FAILED and leaves no context open.
     */
    method Load(url: string, server: (nat, HttpIo.Request) -> HttpIo.Answer, bufferSize: int, addr: int, probe: Probe)
      returns (r: Result<int, HostError>)
      requires Valid()
      requires addr != 0 && (addr in registry.contexts ==> addr == contextPtr)
      requires probe.Probed? ==> ValidFormat(probe.fmt)
      modifies this, registry
      ensures Valid() && this.bufferSize == Some(bufferSize)
      ensures var closed := if old(contextPtr) != 0 then old(registry.contexts) - {old(contextPtr)} else old(registry.contexts);
        && (probe.Probed? ==> (r == Ok(addr) && contextPtr == addr && addr in registry.contexts
              && registry.contexts.Keys == closed.Keys + {addr}
              && (forall h :: h in closed && h != addr ==> registry.contexts[h] == closed[h])
              && registry.contexts[addr].fmt == probe.fmt && registry.contexts[addr].bufferSize == bufferSize))
        && (!probe.Probed? ==> r == Err(SourceOpenFailed) && contextPtr == 0 && registry.contexts == closed)
    {
      if contextPtr != 0 {
        Destroy();
      }
      this.bufferSize := Some(bufferSize);
      var ioHandler := new HttpIo.NodeHttpIOHandler(url, server);
      var handle := registry.OpenSource(ioHandler, bufferSize, addr, probe);
      if handle.Err? {
        return Err(SourceOpenFailed);
      }
      contextPtr := handle.value;
      r := Ok(contextPtr);
    }

    /** getMediaInfo: the media information of the open context; without one the bridge rejects handle 0. */
    method GetMediaInfo() returns (r: Result<MediaInfo, HostError>)
      requires Valid()
      ensures contextPtr == 0 ==> r == Err(Native(InvalidHandle))
      ensures contextPtr != 0 ==> r == Ok(MediaInfoOf(registry.lib, registry.contexts[contextPtr].fmt))
    {
      var info := registry.GetMediaInfo(contextPtr);
      if info.Err? {
        return Err(Native(info.error));
      }
      r := Ok(info.value);
    }

    /** getAVPacket(t): the first packet of the best audio stream from where seeking backward to t lands. */
    method GetAVPacket(timeInSeconds: real) returns (r: Result<WebPacket, HostError>)
      requires Valid()
      modifies registry
      ensures Valid()
      ensures contextPtr == 0 ==> r == Err(Native(InvalidHandle)) && registry.contexts == old(registry.contexts)
      ensures contextPtr != 0 ==>
        var ctx := old(registry.contexts)[contextPtr];
        var o := PacketQuery(ctx.fmt, AVMEDIA_TYPE_AUDIO, -1, timeInSeconds, AVSEEK_FLAG_BACKWARD);
        && (o.result.Ok? ==> r == Ok(o.result.value))
        && (o.result.Err? ==> r == Err(Native(o.result.error)))
        && registry.contexts == old(registry.contexts)[contextPtr := ctx.(fmt := o.fmt)]
    {
      var p := registry.GetAvPacket(contextPtr, AVMEDIA_TYPE_AUDIO, -1, timeInSeconds, AVSEEK_FLAG_BACKWARD);
      if p.Err? {
        return Err(Native(p.error));
      }
      r := Ok(p.value);
    }

    /**
     * createAVStream(start, end): an audio stream over the open context from
     * start to end seconds (end 0 reads to the end of input), reporting the
     * MIME type of the first audio stream. accepts is the new stream's push
     * answer.
     */
    method CreateAVStream(startTimeInSeconds: real, endTimeInSeconds: real, accepts: nat -> bool)
      returns (r: Result<string, HostError>, stream: AVStream?)
      requires Valid()
      ensures contextPtr == 0 ==> r == Err(Native(InvalidHandle)) && stream == null
      ensures contextPtr != 0 ==>
        var info := MediaInfoOf(registry.lib, registry.contexts[contextPtr].fmt);
        && r == Ok(StreamMime(info.streams, AVMEDIA_TYPE_AUDIO))
        && stream != null && fresh(stream)
        && stream.registry == registry && stream.contextPtr == contextPtr
        && stream.startTime == startTimeInSeconds && stream.endTime == endTimeInSeconds
        && stream.mediaType == AVMEDIA_TYPE_AUDIO && stream.mimeType == r.value && stream.accepts == accepts
        && !stream.reading && !stream.finished && stream.pushed == [] && stream.errors == []
    {
      var info := GetMediaInfo();
      if info.Err? {
        return Err(info.error), null;
      }
      var mime := SelectMimeType(info.value.streams, AVMEDIA_TYPE_AUDIO);
      stream := new AVStream(registry, contextPtr, startTimeInSeconds, endTimeInSeconds, AVMEDIA_TYPE_AUDIO, mime, accepts);
      r := Ok(mime);
    }
  }
}
