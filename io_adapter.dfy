/**
 * The I/O callbacks web_demuxer.cpp registers with avio_alloc_context: they
 * turn the engine's synchronous read and seek requests into calls on the
 * host's byte provider and translate the provider's answers.
 */
module IoAdapter {
  import opened Wrappers
  import opened Engine
  import JsNumber

  /** What the provider's read(maxBytes) resolves to: { buffer, bytesRead }. */
  datatype ReadReply = ReadReply(buffer: seq<uint8>, bytesRead: int)

  /**
   * read_packet: reply is what io_handler.read(bufSize) resolved to. A positive
   * count copies the provider's buffer into the first bytes of buf (through a
   * bytesRead-long memory view) and is returned; otherwise the engine is told
   * AVERROR_EOF and buf is untouched. The copy relies on the provider never
   * answering with more bytes than it was asked for.
   */
  method ReadPacket(buf: array<uint8>, bufSize: int, reply: ReadReply) returns (r: int)
    requires 0 <= bufSize <= buf.Length
    requires reply.bytesRead > 0 ==> |reply.buffer| <= reply.bytesRead <= bufSize
    modifies buf
    ensures reply.bytesRead > 0 ==> r == reply.bytesRead
    ensures reply.bytesRead <= 0 ==> r == AVERROR_EOF
    ensures r > 0 <==> reply.bytesRead > 0
    ensures reply.bytesRead > 0 ==> buf[..] == reply.buffer + old(buf[|reply.buffer|..])
    ensures reply.bytesRead <= 0 ==> buf[..] == old(buf[..])
  {
    var bytesRead := reply.bytesRead;
    if bytesRead > 0 {
      // memoryView.set(buffer)
      var n := |reply.buffer|;
      for i := 0 to n
        invariant buf[..i] == reply.buffer[..i]
        invariant buf[i..] == old(buf[i..])
      {
        buf[i] := reply.buffer[i];
        assert buf[..i + 1] == buf[..i] + [buf[i]];
      }
      assert buf[..] == buf[..n] + buf[n..];
    }
    r := if bytesRead > 0 then bytesRead else AVERROR_EOF;
  }

  /** The provider call seek makes. */
  datatype Call = GetSize | Seek(offset: int, whence: int)

  /**
   * (int64_t) applied to the double a provider call resolved to. Only finite
   * integral values inside the int64 range have a defined result.
   */
  function Int64Of(d: JsNumber.Number): (r: Option<int>)
    ensures r.Some? <==> d.Int? && -0x8000_0000_0000_0000 <= d.v < 0x8000_0000_0000_0000
    ensures r.Some? ==> r.value == d.v
  {
    if d.Int? && -0x8000_0000_0000_0000 <= d.v < 0x8000_0000_0000_0000 then Some(d.v) else None
  }

  /** The call seek(offset, whence) makes on the provider. */
  function SeekCall(offset: int, whence: int): (c: Call)
    ensures c.GetSize? <==> whence == AVSEEK_SIZE
    ensures c.Seek? ==> c == Seek(offset, whence)
  {
    if whence == AVSEEK_SIZE then GetSize else Seek(offset, whence)
  }

  /**
   * seek: provider maps each call to what it resolves to. AVSEEK_SIZE asks for
   * the size and never moves the provider; every other whence is forwarded with
   * its offset. The answer is converted to int64 (None: not representable).
   */
  function SeekResult(offset: int, whence: int, provider: Call -> JsNumber.Number): (r: Option<int>)
    ensures whence == AVSEEK_SIZE ==> r == Int64Of(provider(GetSize))
    ensures whence != AVSEEK_SIZE ==> r == Int64Of(provider(Seek(offset, whence)))
  {
    Int64Of(provider(SeekCall(offset, whence)))
  }
}
