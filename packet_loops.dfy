/**
 * The two packet loops of web_demuxer.cpp over the engine's packet sequence:
 * get_av_packet's scan for the first packet of the selected stream, and
 * read_av_packet's loop that hands every packet of that stream to the sink
 * until the end time, a zero reply from the sink or the end of input.
 *
 * Packets are read from cursor `from` of the sequence P; `next` is the cursor
 * the engine is left at.
 */
module PacketLoops {
  import opened Wrappers
  import opened Engine
  import opened Normalize

  /** (int64_t)(t * AV_TIME_BASE), then av_rescale_q to the stream's time base. */
  function SeekTicks(t: real, tb: TimeBase): int
  {
    RescaleFromMicros(TruncToInt(t * AV_TIME_BASE as real), tb)
  }

  predicate IsOf(p: AVPacket, idx: int)
  {
    p.stream_index == idx
  }

  /** The first packet of stream idx at or after from, if any. */
  function NextMatch(P: seq<AVPacket>, from: nat, idx: int): (k: Option<nat>)
    ensures k.Some? ==> from <= k.value < |P| && IsOf(P[k.value], idx)
    ensures k.Some? ==> forall j :: from <= j < k.value ==> !IsOf(P[j], idx)
    ensures k.None? ==> forall j :: from <= j < |P| ==> !IsOf(P[j], idx)
    decreases |P| - from
  {
    if from >= |P| then None
    else if IsOf(P[from], idx) then Some(from)
    else NextMatch(P, from + 1, idx)
  }

  /**
   * get_av_packet's read loop: reads packets until one of stream idx (which it
   * keeps) or the end of input. next is the cursor after the last read.
   */
  method ScanForStream(P: seq<AVPacket>, from: nat, idx: int) returns (k: Option<nat>, next: nat)
    ensures k == NextMatch(P, from, idx)
    ensures k.Some? ==> next == k.value + 1
    ensures k.None? ==> next == if from < |P| then |P| else from
  {
    k := None;
    next := from;
    while next < |P|
      invariant from <= next && (from < |P| ==> next <= |P|) && (from >= |P| ==> next == from)
      invariant k.None? && NextMatch(P, from, idx) == NextMatch(P, next, idx)
      decreases |P| - next
    {
      var p := P[next];
      next := next + 1;
      if IsOf(p, idx) {
        k := Some(next - 1);
        break;
      }
    }
  }

  /** The packets of stream idx among P[from..upto], in order. */
  function Matches(P: seq<AVPacket>, from: nat, upto: nat, idx: int): (m: seq<AVPacket>)
    requires upto <= |P|
    ensures forall j :: 0 <= j < |m| ==> IsOf(m[j], idx)
    decreases upto
  {
    if upto <= from then []
    else Matches(P, from, upto - 1, idx) + (if IsOf(P[upto - 1], idx) then [P[upto - 1]] else [])
  }

  function WebPackets(m: seq<AVPacket>, tb: TimeBase): (w: seq<WebPacket>)
    ensures |w| == |m|
    ensures forall j :: 0 <= j < |m| ==> w[j] == GenWebPacket(m[j], tb)
  {
    if m == [] then [] else [GenWebPacket(m[0], tb)] + WebPackets(m[1..], tb)
  }

  /** Whether a packet falls after the end time; an end of 0 or less means no end. */
  predicate PastEnd(w: WebPacket, end: real)
  {
    end > 0.0 && w.timestamp > end
  }

  /** What read_av_packet's loop hands the sink, and the cursor it leaves. */
  datatype Run = Run(delivered: seq<WebPacket>, next: nat)

  /**
   * read_av_packet's loop from cursor from, the sink having received k packets
   * so far and replying replies(j) to its j-th packet: packets of other streams
   * are skipped; a packet past the end stops the loop undelivered; a packet
   * the sink answers with 0 is the last one delivered.
   */
  function StreamRun(P: seq<AVPacket>, from: nat, idx: int, tb: TimeBase, end: real,
                     replies: nat -> int, k: nat): (r: Run)
    ensures from <= r.next
    ensures from < |P| ==> r.next <= |P|
    decreases |P| - from
  {
    if from >= |P| then Run([], from)
    else if !IsOf(P[from], idx) then StreamRun(P, from + 1, idx, tb, end, replies, k)
    else
      var w := GenWebPacket(P[from], tb);
      if PastEnd(w, end) then Run([], from + 1)
      else if replies(k) == 0 then Run([w], from + 1)
      else
        var rest := StreamRun(P, from + 1, idx, tb, end, replies, k + 1);
        Run([w] + rest.delivered, rest.next)
  }

  /**
   * The loop of read_av_packet. It returns the packets in the order it sends
   * them; replies(j) is the sink's answer to the j-th.
   */
  method StreamLoop(P: seq<AVPacket>, from: nat, idx: int, tb: TimeBase, end: real, replies: nat -> int)
    returns (delivered: seq<WebPacket>, next: nat)
    ensures Run(delivered, next) == StreamRun(P, from, idx, tb, end, replies, 0)
  {
    delivered := [];
    next := from;
    while next < |P|
      invariant from <= next
      invariant var rest := StreamRun(P, next, idx, tb, end, replies, |delivered|);
        StreamRun(P, from, idx, tb, end, replies, 0) == Run(delivered + rest.delivered, rest.next)
      decreases |P| - next
    {
      var p := P[next];
      next := next + 1;
      if IsOf(p, idx) {
        var w := GenWebPacket(p, tb);
        if PastEnd(w, end) {
          break;
        }
        var reply := replies(|delivered|);
        delivered := delivered + [w];
        if reply == 0 {
          break;
        }
        assert [w] + StreamRun(P, next, idx, tb, end, replies, |delivered|).delivered
          == StreamRun(P, next - 1, idx, tb, end, replies, |delivered| - 1).delivered;
      }
    }
  }

  /** One step of StreamRun at a packet of the selected stream that is delivered. */
  lemma DeliverStep(P: seq<AVPacket>, from: nat, idx: int, tb: TimeBase, end: real,
                    replies: nat -> int, k: nat)
    requires from < |P| && IsOf(P[from], idx) && !PastEnd(GenWebPacket(P[from], tb), end)
    ensures var r := StreamRun(P, from, idx, tb, end, replies, k);
      var rest := StreamRun(P, from + 1, idx, tb, end, replies, k + 1);
      && r.delivered[0] == GenWebPacket(P[from], tb)
      && (replies(k) == 0 ==> r == Run([GenWebPacket(P[from], tb)], from + 1))
      && (replies(k) != 0 ==> r.delivered == [GenWebPacket(P[from], tb)] + rest.delivered && r.next == rest.next)
  {
  }

  /** One step of StreamRun at a packet of another stream. */
  lemma SkipStep(P: seq<AVPacket>, from: nat, idx: int, tb: TimeBase, end: real,
                 replies: nat -> int, k: nat)
    requires from < |P| && !IsOf(P[from], idx)
    ensures StreamRun(P, from, idx, tb, end, replies, k) == StreamRun(P, from + 1, idx, tb, end, replies, k)
  {
  }

  /** Everything delivered belongs to the selected stream. */
  lemma {:induction false} DeliveredFromStream(P: seq<AVPacket>, from: nat, idx: int, tb: TimeBase, end: real,
                                              replies: nat -> int, k: nat)
    ensures var r := StreamRun(P, from, idx, tb, end, replies, k);
      forall j :: 0 <= j < |r.delivered| ==> r.delivered[j].stream_index == idx
    decreases |P| - from
  {
    if from < |P| {
      if !IsOf(P[from], idx) {
        DeliveredFromStream(P, from + 1, idx, tb, end, replies, k);
        SkipStep(P, from, idx, tb, end, replies, k);
      } else if !PastEnd(GenWebPacket(P[from], tb), end) {
        DeliveredFromStream(P, from + 1, idx, tb, end, replies, k + 1);
        DeliverStep(P, from, idx, tb, end, replies, k);
      }
    }
  }

  /** With a positive end, nothing past it is delivered. */
  lemma {:induction false} DeliveredBeforeEnd(P: seq<AVPacket>, from: nat, idx: int, tb: TimeBase, end: real,
                                             replies: nat -> int, k: nat)
    ensures var r := StreamRun(P, from, idx, tb, end, replies, k);
      forall j :: 0 <= j < |r.delivered| ==> !PastEnd(r.delivered[j], end)
    decreases |P| - from
  {
    if from < |P| {
      if !IsOf(P[from], idx) {
        DeliveredBeforeEnd(P, from + 1, idx, tb, end, replies, k);
        SkipStep(P, from, idx, tb, end, replies, k);
      } else if !PastEnd(GenWebPacket(P[from], tb), end) {
        DeliveredBeforeEnd(P, from + 1, idx, tb, end, replies, k + 1);
        DeliverStep(P, from, idx, tb, end, replies, k);
      }
    }
  }

  /** Only the last delivered packet can have been answered with 0. */
  lemma {:induction false} ZeroReplyOnlyLast(P: seq<AVPacket>, from: nat, idx: int, tb: TimeBase, end: real,
                                            replies: nat -> int, k: nat)
    ensures var r := StreamRun(P, from, idx, tb, end, replies, k);
      forall j :: k <= j < k + |r.delivered| - 1 ==> replies(j) != 0
    decreases |P| - from
  {
    if from < |P| {
      if !IsOf(P[from], idx) {
        ZeroReplyOnlyLast(P, from + 1, idx, tb, end, replies, k);
        SkipStep(P, from, idx, tb, end, replies, k);
      } else if !PastEnd(GenWebPacket(P[from], tb), end) {
        DeliverStep(P, from, idx, tb, end, replies, k);
        if replies(k) != 0 {
          ZeroReplyOnlyLast(P, from + 1, idx, tb, end, replies, k + 1);
        }
      }
    }
  }

  lemma MatchesPrepend(P: seq<AVPacket>, from: nat, upto: nat, idx: int)
    requires from < upto <= |P|
    ensures Matches(P, from, upto, idx)
      == (if IsOf(P[from], idx) then [P[from]] else []) + Matches(P, from + 1, upto, idx)
    decreases upto
  {
    if from + 1 < upto {
      MatchesPrepend(P, from, upto - 1, idx);
    }
  }

  lemma WebPacketsPrepend(p: AVPacket, m: seq<AVPacket>, tb: TimeBase)
    ensures WebPackets([p] + m, tb) == [GenWebPacket(p, tb)] + WebPackets(m, tb)
  {
    assert ([p] + m)[1..] == m;
  }

  /** The packets sent to the sink if every packet of stream idx in P[from..upto] were delivered. */
  function Sent(P: seq<AVPacket>, from: nat, upto: nat, idx: int, tb: TimeBase): seq<WebPacket>
    requires upto <= |P|
  {
    WebPackets(Matches(P, from, upto, idx), tb)
  }

  /** The ways read_av_packet's loop can end; see RunOutcome. */
  predicate Ended(P: seq<AVPacket>, from: nat, idx: int, tb: TimeBase, end: real,
                  replies: nat -> int, k: nat, r: Run)
    requires from <= r.next <= |P|
  {
    || (r.delivered == Sent(P, from, r.next, idx, tb)
        && (r.next == |P| || (r.delivered != [] && replies(k + |r.delivered| - 1) == 0)))
    || (from < r.next && r.delivered + [GenWebPacket(P[r.next - 1], tb)] == Sent(P, from, r.next, idx, tb)
        && IsOf(P[r.next - 1], idx) && PastEnd(GenWebPacket(P[r.next - 1], tb), end))
  }

  lemma SentSkip(P: seq<AVPacket>, from: nat, upto: nat, idx: int, tb: TimeBase)
    requires from < upto <= |P| && !IsOf(P[from], idx)
    ensures Sent(P, from, upto, idx, tb) == Sent(P, from + 1, upto, idx, tb)
  {
    MatchesPrepend(P, from, upto, idx);
  }

  lemma SentTake(P: seq<AVPacket>, from: nat, upto: nat, idx: int, tb: TimeBase)
    requires from < upto <= |P| && IsOf(P[from], idx)
    ensures Sent(P, from, upto, idx, tb) == [GenWebPacket(P[from], tb)] + Sent(P, from + 1, upto, idx, tb)
  {
    MatchesPrepend(P, from, upto, idx);
    WebPacketsPrepend(P[from], Matches(P, from + 1, upto, idx), tb);
  }

  lemma EndedAtSkip(P: seq<AVPacket>, from: nat, idx: int, tb: TimeBase, end: real,
                    replies: nat -> int, k: nat, r: Run)
    requires from < |P| && !IsOf(P[from], idx)
    requires r == StreamRun(P, from + 1, idx, tb, end, replies, k) && r.next <= |P|
    requires Ended(P, from + 1, idx, tb, end, replies, k, r)
    ensures Ended(P, from, idx, tb, end, replies, k, r)
  {
    SentSkip(P, from, r.next, idx, tb);
  }

  lemma EndedAtLast(P: seq<AVPacket>, from: nat, idx: int, tb: TimeBase, end: real,
                    replies: nat -> int, k: nat)
    requires from < |P| && IsOf(P[from], idx)
    requires PastEnd(GenWebPacket(P[from], tb), end) || replies(k) == 0
    ensures var r := StreamRun(P, from, idx, tb, end, replies, k);
      r.next == from + 1 && Ended(P, from, idx, tb, end, replies, k, r)
  {
    var w := GenWebPacket(P[from], tb);
    var r := StreamRun(P, from, idx, tb, end, replies, k);
    SentTake(P, from, from + 1, idx, tb);
    assert Matches(P, from + 1, from + 1, idx) == [];
    assert Sent(P, from, from + 1, idx, tb) == [w];
    if PastEnd(w, end) {
      assert r == Run([], from + 1);
      assert r.delivered + [GenWebPacket(P[r.next - 1], tb)] == Sent(P, from, r.next, idx, tb);
    } else {
      DeliverStep(P, from, idx, tb, end, replies, k);
      assert r == Run([w], from + 1);
    }
  }

  /** The first way of ending, carried back over a delivered packet. */
  lemma EndedAtDeliverFull(P: seq<AVPacket>, from: nat, idx: int, tb: TimeBase, end: real,
                           replies: nat -> int, k: nat, rest: Run)
    requires from < |P| && IsOf(P[from], idx)
    requires !PastEnd(GenWebPacket(P[from], tb), end) && replies(k) != 0
    requires rest == StreamRun(P, from + 1, idx, tb, end, replies, k + 1) && from + 1 <= rest.next <= |P|
    requires rest.delivered == Sent(P, from + 1, rest.next, idx, tb)
    requires rest.next == |P| || (rest.delivered != [] && replies(k + 1 + |rest.delivered| - 1) == 0)
    ensures var r := StreamRun(P, from, idx, tb, end, replies, k);
      r.delivered == Sent(P, from, r.next, idx, tb)
      && (r.next == |P| || (r.delivered != [] && replies(k + |r.delivered| - 1) == 0))
  {
    DeliverStep(P, from, idx, tb, end, replies, k);
    SentTake(P, from, rest.next, idx, tb);
  }

  /** The second way of ending, carried back over a delivered packet. */
  lemma EndedAtDeliverCut(P: seq<AVPacket>, from: nat, idx: int, tb: TimeBase, end: real,
                          replies: nat -> int, k: nat, rest: Run)
    requires from < |P| && IsOf(P[from], idx)
    requires !PastEnd(GenWebPacket(P[from], tb), end) && replies(k) != 0
    requires rest == StreamRun(P, from + 1, idx, tb, end, replies, k + 1) && from + 1 < rest.next <= |P|
    requires rest.delivered + [GenWebPacket(P[rest.next - 1], tb)] == Sent(P, from + 1, rest.next, idx, tb)
    ensures var r := StreamRun(P, from, idx, tb, end, replies, k);
      r.delivered + [GenWebPacket(P[r.next - 1], tb)] == Sent(P, from, r.next, idx, tb)
  {
    var r := StreamRun(P, from, idx, tb, end, replies, k);
    var w, g := GenWebPacket(P[from], tb), GenWebPacket(P[rest.next - 1], tb);
    DeliverStep(P, from, idx, tb, end, replies, k);
    assert r.delivered == [w] + rest.delivered && r.next == rest.next;
    SentTake(P, from, rest.next, idx, tb);
    assert [w] + rest.delivered + [g] == [w] + (rest.delivered + [g]);
  }

  lemma EndedAtDeliver(P: seq<AVPacket>, from: nat, idx: int, tb: TimeBase, end: real,
                       replies: nat -> int, k: nat, rest: Run)
    requires from < |P| && IsOf(P[from], idx)
    requires !PastEnd(GenWebPacket(P[from], tb), end) && replies(k) != 0
    requires rest == StreamRun(P, from + 1, idx, tb, end, replies, k + 1) && rest.next <= |P|
    requires Ended(P, from + 1, idx, tb, end, replies, k + 1, rest)
    ensures Ended(P, from, idx, tb, end, replies, k, StreamRun(P, from, idx, tb, end, replies, k))
  {
    var r := StreamRun(P, from, idx, tb, end, replies, k);
    DeliverStep(P, from, idx, tb, end, replies, k);
    assert r.next == rest.next;
    if rest.delivered == Sent(P, from + 1, rest.next, idx, tb)
      && (rest.next == |P| || (rest.delivered != [] && replies(k + 1 + |rest.delivered| - 1) == 0))
    {
      EndedAtDeliverFull(P, from, idx, tb, end, replies, k, rest);
    } else {
      EndedAtDeliverCut(P, from, idx, tb, end, replies, k, rest);
      assert IsOf(P[r.next - 1], idx) && PastEnd(GenWebPacket(P[r.next - 1], tb), end);
    }
  }

  /**
   * How the loop ends. It delivers the packets of stream idx it read, in
   * order, except that when the loop stopped at a packet past the end time
   * that last one read is withheld. The loop stops before the end of input
   * only at such a packet or after a packet the sink answered with 0.
   */
  lemma {:induction false} RunOutcome(P: seq<AVPacket>, from: nat, idx: int, tb: TimeBase, end: real,
                                     replies: nat -> int, k: nat)
    requires from <= |P|
    ensures var r := StreamRun(P, from, idx, tb, end, replies, k);
      r.next <= |P| && Ended(P, from, idx, tb, end, replies, k, r)
    decreases |P| - from
  {
    if from == |P| {
      assert Matches(P, from, from, idx) == [];
    } else if !IsOf(P[from], idx) {
      RunOutcome(P, from + 1, idx, tb, end, replies, k);
      SkipStep(P, from, idx, tb, end, replies, k);
      EndedAtSkip(P, from, idx, tb, end, replies, k, StreamRun(P, from + 1, idx, tb, end, replies, k));
    } else if PastEnd(GenWebPacket(P[from], tb), end) || replies(k) == 0 {
      EndedAtLast(P, from, idx, tb, end, replies, k);
    } else {
      RunOutcome(P, from + 1, idx, tb, end, replies, k + 1);
      EndedAtDeliver(P, from, idx, tb, end, replies, k, StreamRun(P, from + 1, idx, tb, end, replies, k + 1));
    }
  }

  /** No packet of stream idx from cursor from on falls past the end time. */
  predicate NoneLate(P: seq<AVPacket>, from: nat, idx: int, tb: TimeBase, end: real)
  {
    forall j :: from <= j < |P| && IsOf(P[j], idx) ==> !PastEnd(GenWebPacket(P[j], tb), end)
  }

  /**
   * When the sink never answers 0 and no packet of the stream is past the end
   * time, the loop runs to the end of input and delivers every packet of the
   * stream, in order.
   */
  lemma {:induction false} RunDeliversAll(P: seq<AVPacket>, from: nat, idx: int, tb: TimeBase, end: real,
                                         replies: nat -> int, k: nat)
    requires from <= |P|
    requires forall j :: k <= j ==> replies(j) != 0
    requires NoneLate(P, from, idx, tb, end)
    ensures StreamRun(P, from, idx, tb, end, replies, k) == Run(Sent(P, from, |P|, idx, tb), |P|)
    decreases |P| - from
  {
    if from == |P| {
      assert Matches(P, from, |P|, idx) == [];
    } else if IsOf(P[from], idx) {
      assert !PastEnd(GenWebPacket(P[from], tb), end);
      RunDeliversAll(P, from + 1, idx, tb, end, replies, k + 1);
      DeliverStep(P, from, idx, tb, end, replies, k);
      SentTake(P, from, |P|, idx, tb);
    } else {
      RunDeliversAll(P, from + 1, idx, tb, end, replies, k);
      SkipStep(P, from, idx, tb, end, replies, k);
      SentSkip(P, from, |P|, idx, tb);
    }
  }

  /** What read_av_packet passes to sendAVPacket: a packet, or the final 0. */
  datatype SinkArg = Data(packet: WebPacket) | Zero

  /** The calls to sendAVPacket: every delivered packet, then a single 0. */
  function SinkCalls(delivered: seq<WebPacket>): (c: seq<SinkArg>)
    ensures |c| == |delivered| + 1 && c[|delivered|] == Zero
    ensures forall j :: 0 <= j < |delivered| ==> c[j] == Data(delivered[j])
  {
    if delivered == [] then [Zero] else [Data(delivered[0])] + SinkCalls(delivered[1..])
  }

  /**
   * The sendAVPacket calls of read_av_packet: packets of the selected stream
   * none of which is past the end time, every one but the last answered with
   * a nonzero reply, then the closing 0.
   */
  lemma SinkCallsOfRun(P: seq<AVPacket>, from: nat, idx: int, tb: TimeBase, end: real,
                       replies: nat -> int, calls: seq<SinkArg>)
    requires calls == SinkCalls(StreamRun(P, from, idx, tb, end, replies, 0).delivered)
    ensures |calls| >= 1 && calls[|calls| - 1] == Zero
    ensures forall j :: 0 <= j < |calls| - 1 ==>
      calls[j].Data? && calls[j].packet.stream_index == idx && !PastEnd(calls[j].packet, end)
    ensures forall j :: 0 <= j < |calls| - 2 ==> replies(j) != 0
  {
    var d := StreamRun(P, from, idx, tb, end, replies, 0).delivered;
    DeliveredFromStream(P, from, idx, tb, end, replies, 0);
    DeliveredBeforeEnd(P, from, idx, tb, end, replies, 0);
    ZeroReplyOnlyLast(P, from, idx, tb, end, replies, 0);
    forall j | 0 <= j < |calls| - 1
      ensures calls[j].Data? && calls[j].packet.stream_index == idx && !PastEnd(calls[j].packet, end)
    {
      assert calls[j] == Data(StreamRun(P, from, idx, tb, end, replies, 0).delivered[j]);
      assert StreamRun(P, from, idx, tb, end, replies, 0).delivered[j].stream_index == idx;
      assert !PastEnd(StreamRun(P, from, idx, tb, end, replies, 0).delivered[j], end);
    }
  }
}
