# seekeable: a Dafny model of the web demuxer bridge and its Node.js host

This project models the two layers that let Node.js seek inside a remote
audio file and read compressed packets from it.

- The native bridge (lib/web-demuxer/web_demuxer.cpp).
  - It wraps the FFmpeg demuxer. Its I/O callbacks turn the engine's reads
    and seeks into calls on a JavaScript byte provider.
  - A table of open demuxer contexts is keyed by integer handles.
  - It describes the media (`get_media_info`), fetches one packet at a
    timestamp (`get_av_packet`) and streams packets to a sink
    (`read_av_packet`).
- The host (seekeable-node/src/index.js).
  - `NodeHttpIOHandler` is the byte provider. It serves reads and seeks with
    HTTP range requests.
  - `AVStream` is the readable stream the bridge pushes packets into.
  - `SeekeableNode` is the user-facing object. It loads a URL, describes it,
    fetches packets and creates streams.

FFmpeg itself is an oracle.
- An opened context (`Engine.FormatContext`) is its streams plus the packet
  sequence that `av_read_frame` would produce, with a cursor.
- `av_find_best_stream` and `av_seek_frame` are function fields of that
  context.
- The engine's name tables and `set_audio_codec_string` are the opaque
  `Engine.Lookups`.

The network is also an oracle, `server(n, request)`: the answer the server
gives to the n-th request the handler makes. JavaScript numbers are
integers, ±Infinity or NaN (`JsNumber.Number`). Durations and timestamps are
exact reals.

Modules, one per component:

| file | module | models |
|---|---|---|
| wrappers.dfy | Wrappers | Option and Result |
| decimal.dfy | Decimal | `std::to_string` on integers and digit strings |
| jsnumber.dfy | JsNumber | JS numbers, comparisons, `Math.min`, `String(n)`, `parseInt(s, 10)` |
| engine.dfy | Engine | FFmpeg as an oracle, constants, time bases, `av_rescale_q` rounding |
| io_adapter.dfy | IoAdapter | `read_packet` and `seek` |
| normalize.dfy | Normalize | the MIME table, `safe_str`, `gen_rational_str`, `gen_web_packet`, `gen_web_stream`, the media description |
| packet_loops.dfy | PacketLoops | the packet loops of `get_av_packet` and `read_av_packet` |
| demuxer.dfy | Demuxer | `context_map` and the bridge's entry points (class `Registry`) |
| http_io.dfy | HttpIo | `NodeHttpIOHandler` (class) and a reference range server |
| node_host.dfy | NodeHost | `convertWasmAVPacketToJS`, `AVStream` and `SeekeableNode` (classes) |

## Model

| member | source | states |
|---|---|---|
| IoAdapter.ReadPacket | lib/web-demuxer/web_demuxer.cpp:31-41 | A positive count is returned and the provider's bytes fill the front of the buffer, with the rest kept. A count of 0 or less gives AVERROR_EOF and leaves the buffer untouched. The result is positive exactly when the count is. |
| IoAdapter.SeekCall | lib/web-demuxer/web_demuxer.cpp:43-53 | AVSEEK_SIZE asks the provider for its size and never calls its seek. Every other whence is forwarded with its offset. |
| IoAdapter.SeekResult | lib/web-demuxer/web_demuxer.cpp:43-53 | The result is the int64 conversion of the provider's size for AVSEEK_SIZE, and of its new position otherwise. |
| IoAdapter.Int64Of | lib/web-demuxer/web_demuxer.cpp:47-51 | The int64 conversion is defined exactly for integers in the int64 range, and keeps their value. |
| Normalize.SafeStr | lib/web-demuxer/web_demuxer.cpp:121-123 | A NULL string reads as "". Any other string reads as itself. |
| Normalize.GenRationalStrInjective | lib/web-demuxer/web_demuxer.cpp:115-119 | With a separator that is neither a digit nor '-', the text of a rational determines the rational. |
| Decimal.IntToStringRoundTrip | lib/web-demuxer/web_demuxer.cpp:194 | The decimal text `std::to_string` gives an integer parses back to that integer. |
| Decimal.IntToStringInjective | lib/web-demuxer/web_demuxer.cpp:194 | Distinct integers print as distinct texts. |
| Normalize.AudioMimeType | lib/web-demuxer/web_demuxer.cpp:125-151 | Each of the seven compressed codecs maps to its MIME type. The six PCM ids, and only they, map to audio/wav. Every other id, and only those, maps to application/octet-stream. |
| Normalize.GenWebPacket | lib/web-demuxer/web_demuxer.cpp:152-170 | The timestamp is the seconds of pts when set, else of dts when set, else 0. The duration is in seconds. The stream index and size are copied. keyframe is 1 exactly when the key flag is set, else 0. The data is the first size payload bytes when size > 0, else empty. |
| Normalize.TruncToInt | lib/web-demuxer/web_demuxer.cpp:203-205 | The (int64_t) cast truncates toward zero: the result lies within 1 of x, on the side of 0. |
| Normalize.FrameCount | lib/web-demuxer/web_demuxer.cpp:203-207 | The engine's frame count is kept unless it is 0 and the frame-rate denominator is nonzero. In that case the count is the container duration times the frame rate, truncated toward zero. |
| Normalize.TagsOf | lib/web-demuxer/web_demuxer.cpp:208-212 | One tag per dictionary entry, in enumeration order, with NULL keys and values read as "". |
| Normalize.CollectTags | lib/web-demuxer/web_demuxer.cpp:208-212 | The `av_dict_get` loop appends exactly the tags of the dictionary, in order, to those already present. |
| Engine.DictNext | lib/web-demuxer/web_demuxer.cpp:209 | Each step of the enumeration yields the next entry (the first one from NULL), and ends after the last one. |
| Normalize.FillStreamRules | lib/web-demuxer/web_demuxer.cpp:172-213 | The index, id and codec type come from the stream. An audio stream gets the engine's codec string, the codec's MIME type, channels and sample rate. Any other stream gets "undf" and keeps its defaults. The duration is the stream's when positive, else the container's. bit_rate and nb_frames parse back to their numbers. The extradata is the first extradata_size bytes. The tags extend the existing ones by one per metadata entry. |
| Normalize.GenWebStream | lib/web-demuxer/web_demuxer.cpp:172-213 | The statement sequence of `gen_web_stream` produces the record that FillStreamRules describes. |
| Normalize.AssignStreamFields | lib/web-demuxer/web_demuxer.cpp:173-207 | The field assignments, with the audio-only ones under the codec-type test. |
| Normalize.MediaInfoOf | lib/web-demuxer/web_demuxer.cpp:274-290 | nb_streams equals the number of streams and of engine streams. Stream i is engine stream i filled from a default record. Start time and duration are in seconds. bit_rate parses back to the container's. |
| Normalize.BuildMediaInfo | lib/web-demuxer/web_demuxer.cpp:274-290 | The for loop over the streams produces exactly MediaInfoOf. |
| Normalize.MediaInfoStreams | lib/web-demuxer/web_demuxer.cpp:286-289 | Stream i reports index i. An audio stream's MIME type comes from the fixed table. A non-audio stream has codec string "undf" and an empty MIME type. |
| Engine.RescaleFromMicros | lib/web-demuxer/web_demuxer.cpp:310-311 | `av_rescale_q` from microseconds rounds a*den/(AV_TIME_BASE*num) to the nearest integer, halves away from zero. |
| PacketLoops.NextMatch | lib/web-demuxer/web_demuxer.cpp:318-323 | The first packet of the stream at or after the cursor, with every packet before it of another stream. None when there is no such packet. |
| PacketLoops.ScanForStream | lib/web-demuxer/web_demuxer.cpp:318-323 | The read loop finds NextMatch. It leaves the cursor just after the match, or at the end of input. |
| Demuxer.PacketQuery | lib/web-demuxer/web_demuxer.cpp:293-337 | The stream-not-found error occurs exactly when no stream is selected. The seek error occurs exactly when `av_seek_frame` fails. After a successful seek, the query looks at NextMatch from the seek position. If there is none, the result is packet-not-found. Otherwise the cursor ends just after that packet, and the result is packet-not-found exactly when the packet has no data. A result is that packet converted, with nothing of the stream skipped. Only the cursor changes. |
| PacketLoops.StreamLoop | lib/web-demuxer/web_demuxer.cpp:369-387 | The while loop delivers exactly what StreamRun describes and leaves the cursor where StreamRun says. |
| PacketLoops.DeliveredFromStream | lib/web-demuxer/web_demuxer.cpp:370 | Every delivered packet belongs to the selected stream. |
| PacketLoops.DeliveredBeforeEnd | lib/web-demuxer/web_demuxer.cpp:375-377 | With end > 0, no delivered packet has a timestamp after end. |
| PacketLoops.ZeroReplyOnlyLast | lib/web-demuxer/web_demuxer.cpp:379-384 | Every delivered packet but the last was answered with a nonzero reply, so delivery stops right after the first 0. |
| PacketLoops.RunOutcome | lib/web-demuxer/web_demuxer.cpp:369-387 | The delivered packets are, in engine order, exactly the stream's packets read so far (a subsequence of the input). One of three things holds: the loop reached the end of input; the last delivered packet was answered with 0; or it read one more packet of the stream, past the end time, and did not deliver it. |
| PacketLoops.RunDeliversAll | lib/web-demuxer/web_demuxer.cpp:369-387 | When the sink never answers 0 and no packet is past the end time, every packet of the stream up to the end of input is delivered, in order. |
| PacketLoops.SinkCalls | lib/web-demuxer/web_demuxer.cpp:379-389 | One call per delivered packet, in order, then exactly one closing 0. |
| PacketLoops.SinkCallsOfRun | lib/web-demuxer/web_demuxer.cpp:369-389 | The sink's calls end with one 0. Every call before it is a packet of the selected stream, not past the end time, and every packet call but the last was answered with a nonzero reply. |
| Demuxer.ReadQuery | lib/web-demuxer/web_demuxer.cpp:339-395 | The stream-not-found error occurs exactly when no stream is selected. The seek error occurs exactly when start > 0 and the seek fails. On error no call is made and nothing changes. Otherwise the result is 1, the calls are as SinkCallsOfRun says, and the cursor does not move back from where reading started. |
| Demuxer.ReadDeliversAll | lib/web-demuxer/web_demuxer.cpp:359-394 | When the sink accepts everything and nothing is late, the calls are all the stream's packets from the start position, then 0, and the engine is left at end of input. |
| Demuxer.Registry.OpenSource | lib/web-demuxer/web_demuxer.cpp:215-255 | Success registers the new handle with its context. Each of the three failures raises its own error and registers nothing. |
| Demuxer.Registry.CloseSource | lib/web-demuxer/web_demuxer.cpp:257-265 | Removes exactly that handle; an unknown handle changes nothing. |
| Demuxer.Registry.GetMediaInfo | lib/web-demuxer/web_demuxer.cpp:267-291 | An unknown handle raises the invalid-handle error. Otherwise the result is MediaInfoOf of the handle's context. |
| Demuxer.Registry.GetAvPacket | lib/web-demuxer/web_demuxer.cpp:293-337 | An unknown handle raises the invalid-handle error and changes nothing. Otherwise the result is PacketQuery's, and only that context's cursor changes. |
| Demuxer.Registry.ReadAvPacket | lib/web-demuxer/web_demuxer.cpp:339-395 | An unknown handle raises the invalid-handle error with no sink call. Otherwise the result, the sink calls and the new cursor are ReadQuery's. |
| JsNumber.ParseIntOfDigits | seekeable-node/src/index.js:65 | parseInt(s, 10) reads a decimal digit string back as its number. |
| HttpIo.ContentRangeTotal | seekeable-node/src/index.js:75-77 | A match is a nonempty run of digits that ends the value and follows a '/'. |
| HttpIo.ContentRangeTotalFinds | seekeable-node/src/index.js:75-77 | Conversely, whenever a '/' is followed by digits to the end, the match is those digits. |
| HttpIo.ProbeSize | seekeable-node/src/index.js:50-84 | A failed or non-2xx HEAD answer is an error (404 is FILE_NOT_FOUND). A HEAD without `accept-ranges: bytes` is RANGE_NOT_SUPPORTED. A truthy Content-Length gives its parseInt after one request. Otherwise the second request `bytes=0-0` is always made, and the result is RangeTotal of its answer. |
| HttpIo.RangeTotal | seekeable-node/src/index.js:66-83 | The one-byte answer is judged like the HEAD answer: a rejection, a 404 or another non-2xx status is that error. Any 2xx answer succeeds. The result is the parseInt of the Content-Range total when the header is truthy and has a `/digits` ending, and Infinity in every other case. |
| HttpIo.SizeStep | seekeable-node/src/index.js:48-94 | A known size is returned with no request. An unknown size (-1) gives ProbeSize's result and appends its requests. A probed size is cached only on success. The position never changes. At most two requests are made. |
| HttpIo.NodeHttpIOHandler.GetSize | seekeable-node/src/index.js:48-94 | The method's result and new fields are SizeStep's. |
| HttpIo.ReadStep | seekeable-node/src/index.js:96-128 | getSize errors pass through. With toRead = min(size, fileSize - pos), the result is an empty buffer with no request when toRead <= 0 and the size is not Infinity. In every other case it is RangeRead for toRead bytes. A success advances the position by exactly the bytes received, and the count equals the buffer length. An error leaves the position unchanged. |
| HttpIo.RangeRead | seekeable-node/src/index.js:105-127 | The one request is `bytes=<pos>-<pos+toRead-1>`. A rejection is FILE_READ_ERROR, 404 is FILE_NOT_FOUND and another non-2xx is NETWORK_ERROR. A 2xx answer gives its body and advances the position by the body's length. |
| HttpIo.NodeHttpIOHandler.Read | seekeable-node/src/index.js:96-128 | The method's result and new fields are ReadStep's. |
| HttpIo.ReadFromRangeServer | seekeable-node/src/index.js:96-120 | Against a correct range server over content, with m = min(size, length - pos): m <= 0 returns nothing with no request; otherwise exactly content[pos..pos+m] with one request, and pos advances by m. |
| HttpIo.ReadServedWithin | seekeable-node/src/index.js:96-120 | Against a correct range server, with 0 < m bytes left to read, read returns exactly content[pos..pos+m] with one request, and pos advances by m. |
| HttpIo.ReadAtEnd | seekeable-node/src/index.js:99-103 | At or past the end of a file of known size, or with size <= 0, read returns an empty buffer and makes no request. |
| HttpIo.ReadUnboundedSize | seekeable-node/src/index.js:97-106 | With a size of Infinity, read never clamps. For any size it is the range request `bytes=<pos>-<pos+size-1>`. |
| HttpIo.RangeHeaderRoundTrip | seekeable-node/src/index.js:105-106 | The Range header for first..last parses back as those bounds. |
| HttpIo.ProbeSizeOfRangeServer | seekeable-node/src/index.js:57-84 | Against a correct range server, getSize learns the content's length, from Content-Length or, without it, from the one-byte request's Content-Range. |
| HttpIo.SeekStep | seekeable-node/src/index.js:130-146 | getSize errors pass through. Once the size is known, the seek succeeds exactly when the target (offset, pos+offset or fileSize+offset for SEEK_SET, SEEK_CUR or SEEK_END) is not negative and is not above a size other than Infinity. It then moves there and returns it. Every refusal is SEEK_OUT_OF_BOUNDS, including an unknown whence. An error keeps the position. |
| HttpIo.NodeHttpIOHandler.Seek | seekeable-node/src/index.js:130-146 | The method's result and new fields are SeekStep's. |
| HttpIo.SeekSetWithin | seekeable-node/src/index.js:133-145 | With a known size, SEEK_SET within [0, size] moves there and makes no request. |
| HttpIo.SeekOutside | seekeable-node/src/index.js:133-143 | With a known size, SEEK_SET, SEEK_CUR or SEEK_END to a target outside [0, size] is refused and changes nothing. |
| HttpIo.SeekCurEndWithin | seekeable-node/src/index.js:135-145 | With a known size, SEEK_CUR or SEEK_END to a target within [0, size] moves there and makes no request. |
| HttpIo.SeekUnboundedSize | seekeable-node/src/index.js:133-145 | With a size of Infinity, SEEK_SET and SEEK_CUR move to any target from 0 up and refuse a negative one. SEEK_END always moves to Infinity. |
| HttpIo.NodeHttpIOHandler.constructor | seekeable-node/src/index.js:42-46 | Position 0, size -1 (unknown), no requests yet. |
| NodeHost.ConvertWasmAVPacketToJS | seekeable-node/src/index.js:26-39 | Every packet field is copied, so the packet reads back unchanged. The codec name is that of the packet's stream, or "unknown" when there is no stream at that index. |
| NodeHost.SelectMimeType | seekeable-node/src/index.js:266-274 | The loop with break yields the MIME type of the first stream of the media type, or application/octet-stream. |
| NodeHost.FirstOfType | seekeable-node/src/index.js:268-273 | The index of the first stream of the type, with every earlier stream of another type. The stream count when there is none. |
| NodeHost.StreamMimeOfContext | seekeable-node/src/index.js:262-279 | The type createAVStream reports is the audio MIME type of the engine's first audio stream, or application/octet-stream when there is no audio stream. |
| NodeHost.AVStream.SendAVPacket | seekeable-node/src/index.js:189-195 | 0 pushes nothing and answers 0. A packet is pushed once, and the answer is 1 exactly when push accepted it. |
| NodeHost.AVStream.Replay | seekeable-node/src/index.js:169-195 | Replaying read_av_packet's calls pushes one chunk per packet. Each packet is answered as read_av_packet was told it would be. |
| NodeHost.ReadPushes | seekeable-node/src/index.js:162-195 | A successful `_read` pushes only packets of the selected stream, none past the end time. Push accepted every packet but the last. |
| NodeHost.AVStream.Read | seekeable-node/src/index.js:162-187 | Does nothing when finished or reading. Otherwise it pushes the calls' packets and then exactly one end of stream, and records the error if one was thrown. It ends finished and not reading, and the registry changes as ReadAvPacket says. |
| NodeHost.SeekeableNode.Destroy | seekeable-node/src/index.js:282-287 | Closes the open context, if any, and nulls the handle. With no handle it changes nothing, so a second call is a no-op. |
| NodeHost.SeekeableNode.Load | seekeable-node/src/index.js:223-240 | An open context is destroyed first. Success opens the new handle and keeps every other context. Failure is SOURCE_OPEN_FAILED with no context open. |
| NodeHost.SeekeableNode.GetMediaInfo | seekeable-node/src/index.js:242-245 | Without a context, the bridge's invalid-handle error. Otherwise the context's media description. |
| NodeHost.SeekeableNode.GetAVPacket | seekeable-node/src/index.js:247-260 | PacketQuery for audio, any stream and a backward seek, with the bridge's errors passed on. |
| NodeHost.SeekeableNode.CreateAVStream | seekeable-node/src/index.js:262-280 | Without a context, the invalid-handle error. Otherwise a fresh, unstarted audio stream over the context, whose reported type is StreamMime of the media description. |

## Left out

- FFmpeg is not modelled. `avformat_open_input`, `avformat_find_stream_info`, `av_find_best_stream`, `av_seek_frame`, `av_read_frame`, the name tables and `set_audio_codec_string` are oracles in `Engine`.
  - The model assumes a failed `av_seek_frame` leaves the read position where it was.
  - The engine's own reads and seeks through the I/O callbacks are not linked to the handler's state. `IoAdapter` and `HttpIo` model each side of that interface separately.
- Double arithmetic is not modelled. Timestamps and durations are exact reals, and `av_q2d` is exact division.
  - `(int64_t)` is truncation toward zero of that exact value. The cast of a non-finite double, or of one outside the int64 range, is undefined in C++.
  - In `seek`'s results, `Int64Of` gives None for such a value.
  - Normalize.FrameCount and PacketLoops.SeekTicks use the total `TruncToInt`. An out-of-range product there is an unbounded integer in the model, not undefined behaviour.
  - JS positions above 2^53 and the `(double)offset` conversion in `seek` are not modelled.
- IoAdapter.ReadPacket: provider rejections are not modelled. `read_packet` and `seek` block on the provider's promises with `.await()` and do not handle them. So when the handler's `read` or `seek` rejects (FILE_READ_ERROR, NETWORK_ERROR, SEEK_OUT_OF_BOUNDS), the callback exits by an exception rather than returning a value. The model's provider always answers.
- IoAdapter.SeekResult: the same applies. A rejected `getSize` or `seek` of the provider has no case in the model.
- Engine.RescaleFromMicros: the rounding is an assumption about FFmpeg. The bridge only calls `av_rescale_q`, and the model uses that function's documented rounding (AV_ROUND_NEAR_INF: to nearest, halves away from zero). No property of the bridge depends on the rounding mode.
- JS default arguments are parameters in the model. The defaults are `bufferSize = 32768` in `load` and `end = 0` in `createAVStream`, and callers of `SeekeableNode.Load` and `SeekeableNode.CreateAVStream` pass them explicitly.
- IoAdapter.ReadPacket: requires the provider's count to be at most buf_size and its buffer to be no longer than the count. A larger count writes past the buffer (undefined behaviour). A longer buffer makes the typed-array `set` throw.
- Memory management (`av_malloc`, `av_free`, `av_packet_alloc` and `av_packet_free`) is left out, and so is the "Cannot allocate packet" error: allocation never fails in the model. Handles are abstract nonzero integers chosen by the caller (`addr`), never one still open.
- The 40-byte buffer that `set_audio_codec_string` writes into is not modelled. Its text is opaque.
- `av_log_set_level`, `set_av_log_level` and the Emscripten bindings table are left out. They have no effect on results.
- `.await()`, promises and Node's `Readable` are modelled sequentially.
  - `AVStream.Read` replays read_av_packet's sink calls into `SendAVPacket` after the loop rather than interleaving them. The loop depends on the sink only through its replies, which `PushReplies` supplies from the same oracle (`accepts`, what `push` answers).
  - Parallel calls of `_read` are not modelled; the `reading` guard is.
- SeekeableError messages and the URL attached to them are left out. Errors are modelled by code only, and the bridge's `std::runtime_error` texts are cases of `DemuxError`.
- WASM module loading (`_initializeModule`, `moduleLoadStatus`, `_ensureLoaded`) is left out. The module is the `Registry` passed to the constructor.
  - A null `contextPtr` is passed to the bridge as handle 0, which is never registered, so it gives the invalid-handle error.
  - The `contextPtr === 0` test in `load` cannot succeed, since `open_source` throws instead of returning 0. It is not modelled.
- Headers are looked up by their lower-case names, as `Headers.get` does. Case folding of server-sent names is not modelled.
- The `fetch` transport, and reading the response body, are one oracle answer per request. A rejection (`Failed`) stands for any exception they throw.
- The `io_handler` held by a context is an opaque object in `Demuxer.Ctx`.
- seekeable-node/test.js is not part of this model. It only corroborates the MIME table (mp3 → audio/mpeg).
