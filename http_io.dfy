/**
 * NodeHttpIOHandler (seekeable-node/src/index.js): the byte provider that
 * serves the demuxer's reads and seeks from a remote file with HTTP range
 * requests. The network is the oracle server(n, request), the answer to the
 * n-th request the handler makes; JavaScript numbers are JsNumber.Number.
 */
module HttpIo {
  import opened Wrappers
  import opened Engine
  import opened JsNumber
  import Decimal
  import opened IoAdapter

  const SEEK_SET: int := 0
  const SEEK_CUR: int := 1
  const SEEK_END: int := 2

  /** A HEAD request, or a GET with a Range header. */
  datatype Request = Head | RangeGet(range: string)

  /** A response; header names are lower case, as Headers.get looks them up. */
  datatype Response = Response(status: int, headers: map<string, string>, body: seq<uint8>)

  /** What fetch (and reading the body) resolves to; Failed is a rejection. */
  datatype Answer = Failed | Answered(response: Response)

  /** The codes of the SeekeableErrors the handler throws. */
  datatype ErrorCode = FileNotFound | NetworkError | RangeNotSupported | FileReadError | SeekOutOfBounds

  predicate IsOk(r: Response)
  {
    200 <= r.status <= 299
  }

  /** Headers.get: the value, or null. */
  function Header(r: Response, name: string): Option<string>
  {
    if name in r.headers then Some(r.headers[name]) else None
  }

  /** JavaScript truthiness of a header value: present and not empty. */
  predicate Truthy(h: Option<string>)
  {
    h.Some? && h.value != ""
  }

  /** The longest run of digits at the end of s. */
  function DigitSuffix(s: string): (d: string)
    ensures Decimal.AllDigits(d) && |d| <= |s| && d == s[|s| - |d|..]
    ensures |d| < |s| ==> !Decimal.IsDigit(s[|s| - |d| - 1])
  {
    if s != [] && Decimal.IsDigit(s[|s| - 1]) then DigitSuffix(s[..|s| - 1]) + [s[|s| - 1]] else []
  }

  lemma {:induction false} DigitSuffixCovers(s: string, q: nat)
    requires q <= |s| && Decimal.AllDigits(s[q..])
    ensures |DigitSuffix(s)| >= |s| - q
  {
    if q < |s| {
      assert s[..|s| - 1][q..] == s[q..|s| - 1];
      assert Decimal.IsDigit(s[q..][|s| - 1 - q]);
      DigitSuffixCovers(s[..|s| - 1], q);
    }
  }

  /**
   * contentRange.match(/\/(\d+)$/)[1]: the digits after a '/' that run to the
   * end of the value, if there are any (see ContentRangeTotalFinds for the
   * converse).
   */
  function ContentRangeTotal(s: string): (m: Option<string>)
    ensures m.Some? ==> (|m.value| >= 1 && Decimal.AllDigits(m.value)
      && |m.value| < |s| && s[|s| - |m.value| - 1] == '/' && s[|s| - |m.value|..] == m.value)
  {
    var d := DigitSuffix(s);
    if 1 <= |d| < |s| && s[|s| - |d| - 1] == '/' then Some(d) else None
  }

  /** Wherever a '/' is followed by digits only, up to the end, the match finds those digits. */
  lemma ContentRangeTotalFinds(s: string, p: nat)
    requires p < |s| - 1 && s[p] == '/' && Decimal.AllDigits(s[p + 1..])
    ensures ContentRangeTotal(s) == Some(s[p + 1..])
  {
    var d := DigitSuffix(s);
    DigitSuffixCovers(s, p + 1);
    assert !Decimal.IsDigit(s[p]);
    assert |d| == |s| - p - 1;
  }

  /** The Range header value read sends: bytes=<first>-<last>. */
  function RangeHeader(first: Number, last: Number): string
  {
    "bytes=" + ToString(first) + "-" + ToString(last)
  }

  /** The handler's fields: read position, cached file size (-1: not known yet), and the requests made. */
  datatype IoState = IoState(pos: Number, fileSize: Number, requests: seq<Request>)

  /** A handler call's result and the handler's state after it. */
  datatype Step<T> = Step(result: Result<T, ErrorCode>, st: IoState)

  /** How getSize judges an answer: a rejection, a 404 or any other non-2xx status is an error. */
  function AnswerError(a: Answer): (e: Option<ErrorCode>)
    ensures e.None? <==> a.Answered? && IsOk(a.response)
    ensures a.Answered? && a.response.status == 404 ==> e == Some(FileNotFound)
  {
    match a
    case Failed => Some(NetworkError)
    case Answered(r) => if r.status == 404 then Some(FileNotFound) else if !IsOk(r) then Some(NetworkError) else None
  }

  /** What getSize learns from the server about the size, and the requests it makes. */
  datatype Probe = Probe(result: Result<Number, ErrorCode>, made: seq<Request>)

  /**
   * getSize when the size is not known yet, its first request being the n-th:
   * a HEAD request that must succeed and announce byte ranges; then its
   * Content-Length when it has one, else the total of the Content-Range a
   * one-byte range request answers with, else Infinity.
   */
  function ProbeSize(server: (nat, Request) -> Answer, n: nat): (p: Probe)
    ensures p.made == [Head] || p.made == [Head, RangeGet("bytes=0-0")]
    ensures AnswerError(server(n, Head)).Some? ==> p == Probe(Err(AnswerError(server(n, Head)).value), [Head])
    ensures p.result.Ok? ==> (server(n, Head).Answered? && IsOk(server(n, Head).response)
      && Header(server(n, Head).response, "accept-ranges") == Some("bytes"))
    ensures AnswerError(server(n, Head)).None? && Header(server(n, Head).response, "accept-ranges") != Some("bytes")
      ==> p == Probe(Err(RangeNotSupported), [Head])
    ensures p.result.Ok? && Truthy(Header(server(n, Head).response, "content-length"))
      ==> p == Probe(Ok(ParseInt10(Header(server(n, Head).response, "content-length").value)), [Head])
    ensures AnswerError(server(n, Head)).None? && Header(server(n, Head).response, "accept-ranges") == Some("bytes")
      && !Truthy(Header(server(n, Head).response, "content-length"))
      ==> p.made == [Head, RangeGet("bytes=0-0")]
    ensures p.made == [Head, RangeGet("bytes=0-0")] ==> p.result == RangeTotal(server(n + 1, RangeGet("bytes=0-0")))
  {
    var head := server(n, Head);
    match AnswerError(head)
    case Some(e) => Probe(Err(e), [Head])
    case None =>
      var contentLength := Header(head.response, "content-length");
      if Header(head.response, "accept-ranges") != Some("bytes") then Probe(Err(RangeNotSupported), [Head])
      else if Truthy(contentLength) then Probe(Ok(ParseInt10(contentLength.value)), [Head])
      else
        Probe(RangeTotal(server(n + 1, RangeGet("bytes=0-0"))), [Head, RangeGet("bytes=0-0")])
  }

  /**
   * getSize's fallback, from the answer to the one-byte range request: an
   * error unless it succeeds, then the total of its Content-Range, or
   * Infinity when there is none to read.
   */
  function RangeTotal(a: Answer): (r: Result<Number, ErrorCode>)
    ensures AnswerError(a).Some? ==> r == Err(AnswerError(a).value)
    ensures r.Ok? ==> a.Answered? && IsOk(a.response)
    ensures r.Ok? && r.value != PosInf ==>
      var h := Header(a.response, "content-range");
      h.Some? && ContentRangeTotal(h.value).Some? && r.value == ParseInt10(ContentRangeTotal(h.value).value)
    ensures AnswerError(a).None? && Truthy(Header(a.response, "content-range"))
      && ContentRangeTotal(Header(a.response, "content-range").value).Some?
      ==> r == Ok(ParseInt10(ContentRangeTotal(Header(a.response, "content-range").value).value))
    ensures AnswerError(a).None? ==> r.Ok?
    ensures AnswerError(a).None?
      && (!Truthy(Header(a.response, "content-range"))
          || ContentRangeTotal(Header(a.response, "content-range").value).None?)
      ==> r == Ok(PosInf)
  {
    match AnswerError(a)
    case Some(e) => Err(e)
    case None =>
      var contentRange := Header(a.response, "content-range");
      if !Truthy(contentRange) then Ok(PosInf)
      else
        match ContentRangeTotal(contentRange.value)
        case Some(total) => Ok(ParseInt10(total))
        case None => Ok(PosInf)
  }

  /** getSize: the cached size, or the probed one, cached only on success. */
  function SizeStep(st: IoState, server: (nat, Request) -> Answer): (s: Step<Number>)
    ensures !StrictEq(st.fileSize, Int(-1)) ==> s == Step(Ok(st.fileSize), st)
    ensures s.st.pos == st.pos && |st.requests| <= |s.st.requests| <= |st.requests| + 2
    ensures s.st.requests[..|st.requests|] == st.requests
    ensures s.result.Ok? ==> s.st.fileSize == s.result.value
    ensures s.result.Err? ==> s.st.fileSize == st.fileSize
    ensures StrictEq(st.fileSize, Int(-1)) ==>
      var p := ProbeSize(server, |st.requests|);
      s.result == p.result && s.st.requests == st.requests + p.made
  {
    if !StrictEq(st.fileSize, Int(-1)) then Step(Ok(st.fileSize), st)
    else
      var p := ProbeSize(server, |st.requests|);
      var requests := st.requests + p.made;
      assert requests[..|st.requests|] == st.requests;
      match p.result
      case Ok(size) => Step(Ok(size), st.(fileSize := size, requests := requests))
      case Err(e) => Step(Err(e), st.(requests := requests))
  }

  /**
   * read(size): after getSize, min(size, fileSize - pos) bytes from pos in a
   * single range request (none when that is not positive and the size is
   * finite); the position advances by the bytes received.
   */
  function ReadStep(st: IoState, server: (nat, Request) -> Answer, size: int): (r: Step<ReadReply>)
    ensures var s := SizeStep(st, server);
      && r.st.fileSize == s.st.fileSize
      && (s.result.Err? ==> r == Step(Err(s.result.error), s.st))
      && |s.st.requests| <= |r.st.requests| <= |s.st.requests| + 1
      && r.st.requests[..|s.st.requests|] == s.st.requests
      && (r.result.Ok? ==> r.st.pos == Add(st.pos, Int(r.result.value.bytesRead)))
      && (r.result.Err? ==> r.st.pos == st.pos)
    ensures r.result.Ok? ==> r.result.value.bytesRead == |r.result.value.buffer|
    ensures var s := SizeStep(st, server);
      var toRead := Min(Int(size), Sub(s.st.fileSize, s.st.pos));
      s.result.Ok? ==>
        && (LessEq(toRead, Int(0)) && !StrictEq(s.st.fileSize, PosInf) ==> r == Step(Ok(ReadReply([], 0)), s.st))
        && (!(LessEq(toRead, Int(0)) && !StrictEq(s.st.fileSize, PosInf)) ==> r == RangeRead(s.st, server, toRead))
  {
    var s := SizeStep(st, server);
    if s.result.Err? then Step(Err(s.result.error), s.st)
    else
      var toRead := Min(Int(size), Sub(s.st.fileSize, s.st.pos));
      if LessEq(toRead, Int(0)) && !StrictEq(s.st.fileSize, PosInf) then Step(Ok(ReadReply([], 0)), s.st)
      else RangeRead(s.st, server, toRead)
  }

  /** The single range request of read for toRead bytes from pos, and what its answer gives. */
  function RangeRead(st: IoState, server: (nat, Request) -> Answer, toRead: Number): (r: Step<ReadReply>)
    ensures r.st.fileSize == st.fileSize
    ensures r.st.requests == st.requests + [RangeGet(RangeHeader(st.pos, Sub(Add(st.pos, toRead), Int(1))))]
    ensures var a := server(|st.requests|, RangeGet(RangeHeader(st.pos, Sub(Add(st.pos, toRead), Int(1)))));
      && (a.Failed? ==> r.result == Err(FileReadError))
      && (a.Answered? && a.response.status == 404 ==> r.result == Err(FileNotFound))
      && (a.Answered? && a.response.status != 404 && !IsOk(a.response) ==> r.result == Err(NetworkError))
      && (a.Answered? && IsOk(a.response) ==> r.result == Ok(ReadReply(a.response.body, |a.response.body|)))
    ensures r.result.Ok? ==> r.st.pos == Add(st.pos, Int(r.result.value.bytesRead))
    ensures r.result.Err? ==> r.st.pos == st.pos
    ensures r.result.Ok? ==> r.result.value.bytesRead == |r.result.value.buffer|
  {
    var req := RangeGet(RangeHeader(st.pos, Sub(Add(st.pos, toRead), Int(1))));
    var st2 := st.(requests := st.requests + [req]);
    assert st2.requests[..|st.requests|] == st.requests;
    match server(|st.requests|, req)
    case Failed => Step(Err(FileReadError), st2)
    case Answered(resp) =>
      if resp.status == 404 then Step(Err(FileNotFound), st2)
      else if !IsOk(resp) then Step(Err(NetworkError), st2)
      else Step(Ok(ReadReply(resp.body, |resp.body|)), st2.(pos := Add(st.pos, Int(|resp.body|))))
  }

  /** The position seek(offset, whence) asks for; an unknown whence asks for -1. */
  function SeekTarget(st: IoState, offset: int, whence: int): Number
  {
    if whence == SEEK_SET then Int(offset)
    else if whence == SEEK_CUR then Add(st.pos, Int(offset))
    else if whence == SEEK_END then Add(st.fileSize, Int(offset))
    else Int(-1)
  }

  /**
   * seek(offset, whence): after getSize, moves to the target unless it is
   * negative or beyond a finite size.
   */
  function SeekStep(st: IoState, server: (nat, Request) -> Answer, offset: int, whence: int): (r: Step<Number>)
    ensures var s := SizeStep(st, server);
      && r.st.requests == s.st.requests && r.st.fileSize == s.st.fileSize
      && (s.result.Err? ==> r == Step(Err(s.result.error), s.st))
      && (r.result.Err? ==> r.st.pos == st.pos)
      && (r.result.Ok? ==> r.st.pos == r.result.value == SeekTarget(s.st, offset, whence))
      && (r.result.Ok? ==> !Less(r.result.value, Int(0)))
      && (r.result.Ok? && s.st.fileSize.Int? ==> !Greater(r.result.value, s.st.fileSize))
    ensures SizeStep(st, server).result.Ok? && whence !in {SEEK_SET, SEEK_CUR, SEEK_END}
      ==> r.result == Err(SeekOutOfBounds)
    ensures var s := SizeStep(st, server);
      var t := SeekTarget(s.st, offset, whence);
      s.result.Ok? ==>
        && (r.result.Ok? <==> !Less(t, Int(0)) && (StrictEq(s.st.fileSize, PosInf) || !Greater(t, s.st.fileSize)))
        && (r.result.Err? ==> r.result == Err(SeekOutOfBounds))
  {
    var s := SizeStep(st, server);
    if s.result.Err? then Step(Err(s.result.error), s.st)
    else
      var st1 := s.st;
      var newPos := SeekTarget(st1, offset, whence);
      if Less(newPos, Int(0)) || (!StrictEq(st1.fileSize, PosInf) && Greater(newPos, st1.fileSize)) then
        Step(Err(SeekOutOfBounds), st1)
      else
        Step(Ok(newPos), st1.(pos := newPos))
  }

  /** Parses bytes=<first>-<last> with decimal bounds. */
  function ParseByteRange(h: string): Option<(nat, nat)>
  {
    if |h| < 6 || h[..6] != "bytes=" then None
    else
      var rest := h[6..];
      var k := Decimal.FirstIndex(rest, '-');
      if 0 < k < |rest| - 1 && Decimal.AllDigits(rest[..k]) && Decimal.AllDigits(rest[k + 1..]) then
        Some((Decimal.DigitsValue(rest[..k]), Decimal.DigitsValue(rest[k + 1..])))
      else None
  }

  /** The Range header of a read from first to last reads back as those bounds. */
  lemma RangeHeaderRoundTrip(first: nat, last: nat)
    ensures ParseByteRange(RangeHeader(Int(first), Int(last))) == Some((first, last))
  {
    var a, b := Decimal.NatToString(first), Decimal.NatToString(last);
    assert ToString(Int(first)) == a && ToString(Int(last)) == b;
    var h := RangeHeader(Int(first), Int(last));
    assert h == "bytes=" + a + "-" + b;
    assert h[..6] == "bytes=";
    var rest := h[6..];
    assert rest == a + ['-'] + b;
    Decimal.FirstIndexAfter(a, '-', b);
    assert rest[..|a|] == a && rest[|a| + 1..] == b;
    Decimal.NatToStringValue(first);
    Decimal.NatToStringValue(last);
  }

  /**
   * A reference server for content: with withLength, HEAD announces the
   * length; every range request is served from content with 206, a range that
   * does not start inside content or is malformed with 416.
   */
  function RangeAnswer(content: seq<uint8>, withLength: bool, req: Request): Answer
  {
    match req
    case Head => HeadAnswer(content, withLength)
    case RangeGet(range) =>
      match ParseByteRange(range)
      case None => Answered(Response(416, map[], []))
      case Some((first, last)) => ServeRange(content, first, last)
  }

  function HeadAnswer(content: seq<uint8>, withLength: bool): Answer
  {
    var h := map["accept-ranges" := "bytes"];
    Answered(Response(200, if withLength then h["content-length" := Decimal.NatToString(|content|)] else h, []))
  }

  /** The answer to a well-formed range: the bytes from first up to last, cut at the end of content. */
  function ServeRange(content: seq<uint8>, first: nat, last: nat): Answer
  {
    if first <= last && first < |content| then
      var stop := if last + 1 < |content| then last + 1 else |content|;
      Answered(Response(206,
        map["content-range" := "bytes " + Decimal.NatToString(first) + "-" + Decimal.NatToString(stop - 1)
          + "/" + Decimal.NatToString(|content|)],
        content[first..stop]))
    else Answered(Response(416, map[], []))
  }

  /** server answers every request as the reference server for content does. */
  ghost predicate Serves(server: (nat, Request) -> Answer, content: seq<uint8>, withLength: bool)
  {
    forall n: nat, req: Request :: server(n, req) == RangeAnswer(content, withLength, req)
  }

  /** The Content-Range total of a reference answer is the content's length. */
  lemma ContentRangeTotalOf(p: string, total: nat)
    ensures ContentRangeTotal(p + "/" + Decimal.NatToString(total)) == Some(Decimal.NatToString(total))
  {
    var t := Decimal.NatToString(total);
    var s := p + "/" + t;
    assert s[|p| + 1..] == t && s[|p|] == '/';
    ContentRangeTotalFinds(s, |p|);
  }

  lemma ProbeSizeFromLength(server: (nat, Request) -> Answer, content: seq<uint8>, n: nat)
    requires Serves(server, content, true)
    ensures ProbeSize(server, n).result == Ok(Int(|content|))
  {
    assert server(n, Head) == HeadAnswer(content, true);
    assert Header(server(n, Head).response, "content-length") == Some(Decimal.NatToString(|content|));
    ParseIntOfDigits(|content|);
  }

  /** The one-byte request of getSize, answered by the reference server. */
  lemma FirstByteAnswer(server: (nat, Request) -> Answer, content: seq<uint8>, n: nat)
    requires Serves(server, content, false) && |content| > 0
    ensures server(n, RangeGet("bytes=0-0")) == ServeRange(content, 0, 0)
  {
    RangeHeaderRoundTrip(0, 0);
    assert RangeHeader(Int(0), Int(0)) == "bytes=0-0";
    assert server(n, RangeGet("bytes=0-0")) == RangeAnswer(content, false, RangeGet("bytes=0-0"));
  }

  /** The Content-Range the reference server sends for the first byte carries the content's length. */
  lemma FirstByteTotal(content: seq<uint8>)
    requires |content| > 0
    ensures var a := ServeRange(content, 0, 0);
      && a.Answered? && IsOk(a.response) && Header(a.response, "content-range").Some?
      && ContentRangeTotal(Header(a.response, "content-range").value) == Some(Decimal.NatToString(|content|))
  {
    var cr := "bytes " + Decimal.NatToString(0) + "-" + Decimal.NatToString(0);
    ContentRangeTotalOf(cr, |content|);
  }

  /** getSize's fallback: without Content-Length, the size is the total of the one-byte answer's Content-Range. */
  lemma ProbeSizeByContentRange(server: (nat, Request) -> Answer, n: nat, total: string)
    requires server(n, Head).Answered? && IsOk(server(n, Head).response)
    requires Header(server(n, Head).response, "accept-ranges") == Some("bytes")
    requires Header(server(n, Head).response, "content-length") == None
    requires var a := server(n + 1, RangeGet("bytes=0-0"));
      && a.Answered? && IsOk(a.response) && Header(a.response, "content-range").Some?
      && ContentRangeTotal(Header(a.response, "content-range").value) == Some(total)
    ensures ProbeSize(server, n).result == Ok(ParseInt10(total))
  {
    var a := server(n + 1, RangeGet("bytes=0-0"));
    assert AnswerError(server(n, Head)) == None;
    assert Truthy(Header(a.response, "content-range"));
  }

  lemma ProbeSizeFromContentRange(server: (nat, Request) -> Answer, content: seq<uint8>, n: nat)
    requires Serves(server, content, false) && |content| > 0
    ensures ProbeSize(server, n).result == Ok(Int(|content|))
  {
    assert server(n, Head) == HeadAnswer(content, false);
    assert Header(server(n, Head).response, "accept-ranges") == Some("bytes");
    assert Header(server(n, Head).response, "content-length") == None;
    FirstByteAnswer(server, content, n);
    FirstByteTotal(content);
    ProbeSizeByContentRange(server, n, Decimal.NatToString(|content|));
    ParseIntOfDigits(|content|);
  }

  /**
   * Against the reference server the probed size is the content's length:
   * from Content-Length, or, without it, from the Content-Range of the one-byte
   * request (which needs a non-empty content).
   */
  lemma ProbeSizeOfRangeServer(server: (nat, Request) -> Answer, content: seq<uint8>, withLength: bool, n: nat)
    requires Serves(server, content, withLength) && (withLength || |content| > 0)
    ensures ProbeSize(server, n).result == Ok(Int(|content|))
  {
    if withLength {
      ProbeSizeFromLength(server, content, n);
    } else {
      ProbeSizeFromContentRange(server, content, n);
    }
  }

  /** A read at or past the end of a file of known length, or of size <= 0, returns nothing and asks nothing. */
  lemma ReadAtEnd(server: (nat, Request) -> Answer, p: nat, length: nat, size: int, requests: seq<Request>)
    requires size <= 0 || length <= p
    ensures ReadStep(IoState(Int(p), Int(length), requests), server, size)
      == Step(Ok(ReadReply([], 0)), IoState(Int(p), Int(length), requests))
  {
  }

  /** The reference server answers the range request of a read within the content with exactly that range. */
  lemma RangeAnswerWithin(content: seq<uint8>, withLength: bool, first: nat, last: nat)
    requires first <= last < |content|
    ensures RangeAnswer(content, withLength, RangeGet(RangeHeader(Int(first), Int(last)))) == ServeRange(content, first, last)
  {
    RangeHeaderRoundTrip(first, last);
  }

  /** With a known finite size and m > 0 bytes left to read, read is its single range request. */
  lemma ReadKnownSize(st: IoState, server: (nat, Request) -> Answer, p: nat, length: nat, m: nat, size: int)
    requires st.pos == Int(p) && st.fileSize == Int(length) && p + m <= length && 0 < m
    requires m == size || (size > m && m == length - p)
    ensures ReadStep(st, server, size) == RangeRead(st, server, Int(m))
  {
    assert SizeStep(st, server) == Step(Ok(st.fileSize), st);
    assert Min(Int(size), Sub(st.fileSize, st.pos)) == Int(m);
  }

  /** A range request answered with a 2xx status other than 404 delivers the body and advances the position by its length. */
  lemma RangeReadServed(st: IoState, server: (nat, Request) -> Answer, toRead: Number, r: Response)
    requires server(|st.requests|, RangeGet(RangeHeader(st.pos, Sub(Add(st.pos, toRead), Int(1))))) == Answered(r)
    requires IsOk(r)
    ensures RangeRead(st, server, toRead) == Step(Ok(ReadReply(r.body, |r.body|)),
      st.(requests := st.requests + [RangeGet(RangeHeader(st.pos, Sub(Add(st.pos, toRead), Int(1))))],
          pos := Add(st.pos, Int(|r.body|))))
  {
  }

  /** The reference server answers the range request for first..last within content with that range. */
  lemma ServerAnswersRange(server: (nat, Request) -> Answer, content: seq<uint8>, withLength: bool, n: nat, first: nat, last: nat)
    requires Serves(server, content, withLength) && first <= last < |content|
    ensures server(n, RangeGet(RangeHeader(Int(first), Int(last)))) == ServeRange(content, first, last)
  {
    RangeAnswerWithin(content, withLength, first, last);
    assert server(n, RangeGet(RangeHeader(Int(first), Int(last))))
      == RangeAnswer(content, withLength, RangeGet(RangeHeader(Int(first), Int(last))));
  }

  /** A range request for m bytes at p that is served with content[p..p+m] gives those bytes. */
  lemma RangeReadWithin(server: (nat, Request) -> Answer, content: seq<uint8>, p: nat, m: nat, requests: seq<Request>)
    requires p + m <= |content| && 0 < m
    requires server(|requests|, RangeGet(RangeHeader(Int(p), Int(p + m - 1)))) == ServeRange(content, p, p + m - 1)
    ensures var r := RangeRead(IoState(Int(p), Int(|content|), requests), server, Int(m));
      && r.result == Ok(ReadReply(content[p..p + m], m)) && r.st.pos == Int(p + m)
      && r.st.requests == requests + [RangeGet(RangeHeader(Int(p), Int(p + m - 1)))]
  {
    assert Sub(Add(Int(p), Int(m)), Int(1)) == Int(p + m - 1);
    var a := ServeRange(content, p, p + m - 1);
    assert a.response.body == content[p..p + m];
    RangeReadServed(IoState(Int(p), Int(|content|), requests), server, Int(m), a.response);
  }

  /**
   * Reading size bytes at position p of a file of known length L from the
   * reference server yields exactly content[p..p + m] for m = min(size, L - p),
   * with one range request when m is positive and none otherwise; the count
   * it reports matches the buffer and never exceeds size.
   */
  lemma ReadFromRangeServer(server: (nat, Request) -> Answer, content: seq<uint8>, withLength: bool, p: nat, size: int, requests: seq<Request>)
    requires Serves(server, content, withLength) && p <= |content|
    ensures var m := if size < |content| - p then size else |content| - p;
      var r := ReadStep(IoState(Int(p), Int(|content|), requests), server, size);
      && (m <= 0 ==> r == Step(Ok(ReadReply([], 0)), IoState(Int(p), Int(|content|), requests)))
      && (m > 0 ==> r.result == Ok(ReadReply(content[p..p + m], m)) && r.st.pos == Int(p + m)
                    && |r.st.requests| == |requests| + 1)
      && (r.result.Ok? && r.result.value.bytesRead > 0 ==> r.result.value.bytesRead <= size)
  {
    var m := if size < |content| - p then size else |content| - p;
    var r := ReadStep(IoState(Int(p), Int(|content|), requests), server, size);
    if m <= 0 {
      ReadAtEnd(server, p, |content|, size, requests);
      assert r.result.value.bytesRead == 0;
    } else {
      ReadServedWithin(server, content, withLength, p, m, size, requests);
      assert r.result.value.bytesRead == m;
    }
  }

  /** The case of ReadFromRangeServer with m > 0 bytes to read. */
  lemma ReadServedWithin(server: (nat, Request) -> Answer, content: seq<uint8>, withLength: bool, p: nat, m: nat, size: int,
                         requests: seq<Request>)
    requires Serves(server, content, withLength) && p + m <= |content| && 0 < m
    requires m == size || (size > m && m == |content| - p)
    ensures var r := ReadStep(IoState(Int(p), Int(|content|), requests), server, size);
      && r.result == Ok(ReadReply(content[p..p + m], m)) && r.st.pos == Int(p + m)
      && |r.st.requests| == |requests| + 1
  {
    ReadKnownSize(IoState(Int(p), Int(|content|), requests), server, p, |content|, m, size);
    ServerAnswersRange(server, content, withLength, |requests|, p, p + m - 1);
    RangeReadWithin(server, content, p, m, requests);
  }

  /** A SEEK_SET within a file of known length moves there and makes no request. */
  lemma SeekSetWithin(st: IoState, server: (nat, Request) -> Answer, offset: int, length: nat)
    requires st.fileSize == Int(length) && 0 <= offset <= length
    ensures SeekStep(st, server, offset, SEEK_SET) == Step(Ok(Int(offset)), st.(pos := Int(offset)))
  {
  }

  /** A seek outside a file of known length is refused and leaves the handler as it was. */
  lemma SeekOutside(st: IoState, server: (nat, Request) -> Answer, offset: int, whence: int, length: nat)
    requires st.fileSize == Int(length)
    requires (whence == SEEK_SET && (offset < 0 || offset > length))
      || (whence == SEEK_CUR && st.pos.Int? && (st.pos.v + offset < 0 || st.pos.v + offset > length))
      || (whence == SEEK_END && (offset + length < 0 || offset > 0))
    ensures SeekStep(st, server, offset, whence) == Step(Err(SeekOutOfBounds), st)
  {
  }

  /** A SEEK_CUR or SEEK_END that lands within a file of known length moves there and makes no request. */
  lemma SeekCurEndWithin(st: IoState, server: (nat, Request) -> Answer, offset: int, whence: int, p: nat, length: nat)
    requires st.fileSize == Int(length) && st.pos == Int(p)
    requires (whence == SEEK_CUR && 0 <= p + offset <= length) || (whence == SEEK_END && 0 <= length + offset && offset <= 0)
    ensures var t := if whence == SEEK_CUR then p + offset else length + offset;
      SeekStep(st, server, offset, whence) == Step(Ok(Int(t)), st.(pos := Int(t)))
  {
  }

  /**
   * With a size of Infinity only a negative target is refused: SEEK_SET and
   * SEEK_CUR move to any target from 0 up, and SEEK_END moves to Infinity.
   */
  lemma SeekUnboundedSize(st: IoState, server: (nat, Request) -> Answer, offset: int, p: int)
    requires st.fileSize == PosInf && st.pos == Int(p)
    ensures SeekStep(st, server, offset, SEEK_END) == Step(Ok(PosInf), st.(pos := PosInf))
    ensures SeekStep(st, server, offset, SEEK_SET)
      == if offset >= 0 then Step(Ok(Int(offset)), st.(pos := Int(offset))) else Step(Err(SeekOutOfBounds), st)
    ensures SeekStep(st, server, offset, SEEK_CUR)
      == if p + offset >= 0 then Step(Ok(Int(p + offset)), st.(pos := Int(p + offset))) else Step(Err(SeekOutOfBounds), st)
  {
    assert SizeStep(st, server) == Step(Ok(PosInf), st);
  }

  /**
   * With a size of Infinity read never clamps: whatever size is asked for,
   * it makes the range request for size bytes from pos.
   */
  lemma ReadUnboundedSize(st: IoState, server: (nat, Request) -> Answer, p: int, size: int)
    requires st.fileSize == PosInf && st.pos == Int(p)
    ensures ReadStep(st, server, size) == RangeRead(st, server, Int(size))
    ensures ReadStep(st, server, size).st.requests
      == st.requests + [RangeGet(RangeHeader(Int(p), Int(p + size - 1)))]
  {
    assert SizeStep(st, server) == Step(Ok(PosInf), st);
    assert Min(Int(size), Sub(PosInf, Int(p))) == Int(size);
  }

  class NodeHttpIOHandler {
    const url: string
    /** The answer the server gives to the n-th request. */
    const server: (nat, Request) -> Answer
    var pos: Number
    var fileSize: Number
    var requests: seq<Request>

    function State(): IoState
      reads this
    {
      IoState(pos, fileSize, requests)
    }

    constructor(url: string, server: (nat, Request) -> Answer)
      ensures this.url == url && this.server == server
      ensures State() == IoState(Int(0), Int(-1), [])
    {
      this.url := url;
      this.server := server;
      pos := Int(0);
      fileSize := Int(-1);
      requests := [];
    }

    /** await fetch(url, ...) */
    method Fetch(req: Request) returns (a: Answer)
      modifies this
      ensures a == server(|old(requests)|, req)
      ensures State() == old(State()).(requests := old(requests) + [req])
    {
      a := server(|requests|, req);
      requests := requests + [req];
    }

    method GetSize() returns (r: Result<Number, ErrorCode>)
      modifies this
      ensures Step(r, State()) == SizeStep(old(State()), server)
    {
      if StrictEq(fileSize, Int(-1)) {
        ghost var p := ProbeSize(server, |requests|);
        var head := Fetch(Head);
        var headError := AnswerError(head);
        if headError.Some? {
          assert p == Probe(Err(headError.value), [Head]);
          return Err(headError.value);
        }
        var contentLength := Header(head.response, "content-length");
        var acceptRanges := Header(head.response, "accept-ranges");
        if acceptRanges != Some("bytes") {
          assert p == Probe(Err(RangeNotSupported), [Head]);
          return Err(RangeNotSupported);
        }
        if Truthy(contentLength) {
          fileSize := ParseInt10(contentLength.value);
          assert p == Probe(Ok(fileSize), [Head]);
        } else {
          var range := Fetch(RangeGet("bytes=0-0"));
          var rangeError := AnswerError(range);
          if rangeError.Some? {
            assert p == Probe(Err(rangeError.value), [Head, RangeGet("bytes=0-0")]);
            return Err(rangeError.value);
          }
          var contentRange := Header(range.response, "content-range");
          if Truthy(contentRange) {
            var total := ContentRangeTotal(contentRange.value);
            if total.Some? {
              fileSize := ParseInt10(total.value);
            } else {
              fileSize := PosInf;
            }
          } else {
            fileSize := PosInf;
          }
        }
      }
      r := Ok(fileSize);
    }

    method Read(size: int) returns (r: Result<ReadReply, ErrorCode>)
      modifies this
      ensures Step(r, State()) == ReadStep(old(State()), server, size)
    {
      var known := GetSize();
      if known.Err? {
        return Err(known.error);
      }
      var bytesToRead := Min(Int(size), Sub(fileSize, pos));
      if LessEq(bytesToRead, Int(0)) && !StrictEq(fileSize, PosInf) {
        return Ok(ReadReply([], 0));
      }
      var end := Sub(Add(pos, bytesToRead), Int(1));
      var answer := Fetch(RangeGet(RangeHeader(pos, end)));
      if answer.Failed? {
        return Err(FileReadError);
      }
      var response := answer.response;
      if response.status == 404 {
        return Err(FileNotFound);
      } else if !IsOk(response) {
        return Err(NetworkError);
      }
      var buffer := response.body;
      pos := Add(pos, Int(|buffer|));
      r := Ok(ReadReply(buffer, |buffer|));
    }

    method Seek(offset: int, whence: int) returns (r: Result<Number, ErrorCode>)
      modifies this
      ensures Step(r, State()) == SeekStep(old(State()), server, offset, whence)
    {
      var known := GetSize();
      if known.Err? {
        return Err(known.error);
      }
      var newPos := Int(-1);
      if whence == SEEK_SET {
        newPos := Int(offset);
      } else if whence == SEEK_CUR {
        newPos := Add(pos, Int(offset));
      } else if whence == SEEK_END {
        newPos := Add(fileSize, Int(offset));
      }
      if Less(newPos, Int(0)) || (!StrictEq(fileSize, PosInf) && Greater(newPos, fileSize)) {
        return Err(SeekOutOfBounds);
      }
      pos := newPos;
      r := Ok(pos);
    }
  }
}
