/** One connection of the network: what each end hears, queues and delivers, kept by every move. */
module Channel {
  import opened Bytes
  import opened Codec
  import opened Endpoint
  import opened Drain
  import opened Network

  ghost predicate LegalData(frame: Bytes) { Legal(frame) && IsData(frame) }

  ghost predicate EndpointOk(e: Endpoint) {
    Pump(e.out, e.closed) && Reader(e.inlet) && Clocked(e)
  }

  lemma EndpointKept(e: Endpoint, a: Action, now: nat, stop: bool)
    requires EndpointOk(e) && Enabled(e, a, now)
    ensures EndpointOk(Apply(e, a, now, stop))
    ensures e.out.sent <= Apply(e, a, now, stop).out.sent
    ensures e.closed ==> Apply(e, a, now, stop).closed
  {
    PumpKept(e, a, now, stop);
    ReaderKept(e, a, now, stop);
    ClockedKept(e, a, now, stop);
    OutAfter(e, a, now, stop);
  }

  /** A step adds to the frames read exactly the payload it passes to the receive callback. */
  lemma HeardDelivers(e: Endpoint, a: Action, now: nat, stop: bool)
    requires Reader(e.inlet) && Enabled(e, a, now)
    ensures DataOf(Apply(e, a, now, stop).inlet.heard) == DataOf(e.inlet.heard) + Delivered(e, a, stop)
  {
    var i, i' := e.inlet, Apply(e, a, now, stop).inlet;
    if |i'.heard| > |i.heard| {
      assert i'.heard[..|i.heard|] == i.heard;
      if a.OnBody? {
        CompleteFrameIsLegal(i.headerBuf, i.op.got);
        assert i.op.got != [];
      }
    }
  }

  /** What an endpoint has taken over, and what it will still take over from the closures posted to it. */
  function Handed(e: Endpoint, posted: seq<Bytes>, stop: bool): seq<Bytes> {
    DataOf(e.out.Accepted()) + (if e.closed || stop then [] else DataOf(posted))
  }

  lemma KeepalivesCarryNothing(frames: seq<Bytes>)
    ensures DataOf(frames + [KEEPALIVE_FRAME]) == DataOf(frames)
  {
    KeepaliveLegal();
    DataOfConcat(frames, [KEEPALIVE_FRAME]);
    assert DataOf([KEEPALIVE_FRAME]) == [];
  }

  /** Steps other than a posted frame leave the data handed over alone, or cut it short by closing. */
  lemma HandedByOtherSteps(e: Endpoint, a: Action, now: nat, posted: seq<Bytes>, stop: bool)
    requires EndpointOk(e) && Enabled(e, a, now) && !a.PushFrame?
    ensures Handed(Apply(e, a, now, stop), posted, stop) <= Handed(e, posted, stop)
    ensures !Apply(e, a, now, stop).closed ==> Handed(Apply(e, a, now, stop), posted, stop) == Handed(e, posted, stop)
  {
    hide Apply, Pump, Reader, DataOf, Clocked;
    PumpKept(e, a, now, stop);
    ClockedKept(e, a, now, stop);
    KeepalivesCarryNothing(e.out.Accepted());
  }

  /** The frame at the head of the posted closures moves into the queue, or the endpoint closes. */
  lemma HandedByPush(e: Endpoint, frame: Bytes, now: nat, posted: seq<Bytes>, stop: bool)
    requires EndpointOk(e) && Enabled(e, PushFrame(frame), now)
    ensures var e' := Apply(e, PushFrame(frame), now, stop);
            && Handed(e', posted, stop) <= Handed(e, [frame] + posted, stop)
            && (!e'.closed ==> Handed(e', posted, stop) == Handed(e, [frame] + posted, stop))
  {
    var blocked := stop || e.closed;
    PumpEnqueue(e.out, frame, blocked, e.closed);
    DataOfConcat(e.out.Accepted(), [frame]);
    DataOfConcat([frame], posted);
    ConcatAssoc(DataOf(e.out.Accepted()), DataOf([frame]), DataOf(posted));
    assert e.out.Accepted() + [] == e.out.Accepted();
  }

  // ----- The client -----

  ghost predicate ClientOk(c: Client) {
    && EndpointOk(c.ep)
    && |c.received| <= RECEIVE_QUEUE_CAPACITY
    && Subsequence(c.polled + c.received, DataOf(c.ep.inlet.heard))
    && (c.dropped == 0 ==> c.polled + c.received == DataOf(c.ep.inlet.heard))
    && |DataOf(c.ep.inlet.heard)| == |c.polled| + |c.received| + c.dropped
    && (forall f :: f in c.posted ==> LegalData(f))
    && Handed(c.ep, c.posted, c.stopping) <= c.issued
    && (!c.ep.closed && !c.stopping ==> Handed(c.ep, c.posted, c.stopping) == c.issued)
  }

  lemma DeliveredToClient(c: Client, a: Action, now: nat, room: bool)
    requires ClientOk(c) && Enabled(c.ep, a, now)
    ensures var c' := StepClient(c, a, now, room);
            && Subsequence(c'.polled + c'.received, DataOf(c'.ep.inlet.heard))
            && (c'.dropped == 0 ==> c'.polled + c'.received == DataOf(c'.ep.inlet.heard))
            && |DataOf(c'.ep.inlet.heard)| == |c'.polled| + |c'.received| + c'.dropped
            && |c'.received| <= RECEIVE_QUEUE_CAPACITY
  {
    HeardDelivers(c.ep, a, now, c.stopping);
    var heard := DataOf(c.ep.inlet.heard);
    var got := Delivered(c.ep, a, c.stopping);
    if got == [] {
      assert heard + got == heard;
    } else {
      ConcatAssoc(c.polled, c.received, got);
      SubsequenceKeep(c.polled + c.received, heard, got[0]);
      SubsequenceSkip(c.polled + c.received, heard, got[0]);
    }
  }

  lemma StepClientOk(c: Client, a: Action, now: nat, room: bool)
    requires ClientOk(c) && Enabled(c.ep, a, now) && !a.PushFrame?
    ensures ClientOk(StepClient(c, a, now, room))
  {
    DeliveredToClient(c, a, now, room);
    EndpointKept(c.ep, a, now, c.stopping);
    HandedByOtherSteps(c.ep, a, now, c.posted, c.stopping);
    StopOnlyCuts(Apply(c.ep, a, now, c.stopping), c.posted, c.stopping);
    ClientFrame(c, a, now, room);
  }

  lemma StopOnlyCuts(e: Endpoint, posted: seq<Bytes>, stop: bool)
    ensures Handed(e, posted, true) <= Handed(e, posted, stop)
  {
  }

  lemma ClientFrame(c: Client, a: Action, now: nat, room: bool)
    requires Enabled(c.ep, a, now)
    ensures var c' := StepClient(c, a, now, room);
            && c'.ep == Apply(c.ep, a, now, c.stopping)
            && c'.posted == c.posted && c'.issued == c.issued && c'.polled == c.polled
            && (c.stopping ==> c'.stopping)
  {
  }

  lemma ClientPostOk(c: Client, now: nat)
    requires ClientOk(c) && c.posted != [] && Enabled(c.ep, PushFrame(c.posted[0]), now)
    ensures ClientOk(StepClient(c.(posted := c.posted[1..]), PushFrame(c.posted[0]), now, true))
  {
    var frame := c.posted[0];
    assert c.posted == [frame] + c.posted[1..];
    DeliveredToClient(c, PushFrame(frame), now, true);
    EndpointKept(c.ep, PushFrame(frame), now, c.stopping);
    HandedByPush(c.ep, frame, now, c.posted[1..], c.stopping);
  }

  lemma SendFromClientOk(c: Client, payload: Bytes)
    requires ClientOk(c)
    ensures ClientOk(SendFromClient(c, payload))
  {
    if SendablePayload(payload) {
      var frame := DataFrame(payload);
      DataFrameLegal(payload);
      DataOfConcat(c.posted, [frame]);
      assert DataOf([frame]) == [payload];
      ConcatAssoc(DataOf(c.ep.out.Accepted()), DataOf(c.posted), [payload]);
    }
  }

  lemma PollClientOk(c: Client)
    requires ClientOk(c)
    ensures ClientOk(PollClient(c))
    ensures PollClient(c).polled + PollClient(c).received == c.polled + c.received
  {
    if c.received != [] {
      assert c.received == [c.received[0]] + c.received[1..];
      ConcatAssoc(c.polled, [c.received[0]], c.received[1..]);
    }
  }

  // ----- The connection -----

  function FramesIn(posted: seq<Post>): seq<Bytes> {
    if posted == [] then []
    else (if posted[0].EnqueuePost? then [posted[0].frame] else []) + FramesIn(posted[1..])
  }

  lemma {:induction false} FramesInConcat(a: seq<Post>, b: seq<Post>)
    ensures FramesIn(a + b) == FramesIn(a) + FramesIn(b)
  {
    if a == [] {
      assert a + b == b;
    } else {
      FramesInConcat(a[1..], b);
      assert (a + b)[1..] == a[1..] + b;
    }
  }

  /** The payloads a session has taken over or will still take over. */
  function HandedToSession(c: Conn): seq<Bytes> {
    Handed(c.server, FramesIn(c.posted), false)
  }

  ghost predicate ConnOk(c: Conn) {
    && EndpointOk(c.server) && ClientOk(c.client)
    && (forall p :: p in c.posted && p.EnqueuePost? ==> LegalData(p.frame))
    && c.client.ep.inlet.incoming <= c.server.out.sent
    && (!c.foreign ==> c.server.inlet.incoming <= c.client.ep.out.sent)
  }

  lemma SessionIoOk(c: Conn, a: Action, now: nat)
    requires ConnOk(c) && IoAllowed(c.server, c.client.ep, c.foreign, a, now)
    ensures var c' := c.(server := Apply(c.server, a, now, false));
            && ConnOk(c')
            && HandedToSession(c') <= HandedToSession(c)
            && (!c'.server.closed ==> HandedToSession(c') == HandedToSession(c))
  {
    EndpointKept(c.server, a, now, false);
    HandedByOtherSteps(c.server, a, now, FramesIn(c.posted), false);
    InletUnlessTake(c.server, a, now, false);
  }

  lemma InletUnlessTake(e: Endpoint, a: Action, now: nat, stop: bool)
    requires Enabled(e, a, now)
    ensures Apply(e, a, now, stop).inlet.incoming == e.inlet.incoming + if a.DoTake? then a.chunk else []
  {
  }

  lemma SessionPostOk(c: Conn, now: nat)
    requires ConnOk(c) && c.posted != [] && Enabled(c.server, PostAction(c.posted[0]), now)
    ensures var c' := c.(posted := c.posted[1..], server := Apply(c.server, PostAction(c.posted[0]), now, false));
            && ConnOk(c')
            && HandedToSession(c') <= HandedToSession(c)
            && (!c'.server.closed ==> HandedToSession(c') == HandedToSession(c))
  {
    var a := PostAction(c.posted[0]);
    EndpointKept(c.server, a, now, false);
    InletUnlessTake(c.server, a, now, false);
    if a.PushFrame? {
      HandedByPush(c.server, a.frame, now, FramesIn(c.posted[1..]), false);
    } else {
      assert FramesIn(c.posted) == FramesIn(c.posted[1..]);
      HandedByOtherSteps(c.server, a, now, FramesIn(c.posted), false);
    }
  }

  lemma PostOk(c: Conn, p: Post)
    requires ConnOk(c) && (p.EnqueuePost? ==> LegalData(p.frame))
    ensures var c' := c.(posted := c.posted + [p]);
            && ConnOk(c')
            && HandedToSession(c') == HandedToSession(c)
                 + (if p.EnqueuePost? && !c.server.closed then [p.frame[HEADER_SIZE..]] else [])
  {
    FramesInConcat(c.posted, [p]);
    if p.EnqueuePost? {
      assert FramesIn([p]) == [p.frame];
      DataOfConcat(FramesIn(c.posted), [p.frame]);
      assert DataOf([p.frame]) == [p.frame[HEADER_SIZE..]];
      ConcatAssoc(DataOf(c.server.out.Accepted()), DataOf(FramesIn(c.posted)), [p.frame[HEADER_SIZE..]]);
    } else {
      assert FramesIn(c.posted) + [] == FramesIn(c.posted);
    }
  }

  lemma ClientIoOk(c: Conn, a: Action, now: nat, room: bool)
    requires ConnOk(c) && Enabled(c.client.ep, a, now) && !a.PushFrame?
    requires a.DoTake? ==> c.client.ep.inlet.incoming + a.chunk <= c.server.out.sent
    ensures ConnOk(c.(client := StepClient(c.client, a, now, room)))
  {
    StepClientOk(c.client, a, now, room);
    EndpointKept(c.client.ep, a, now, c.client.stopping);
    InletUnlessTake(c.client.ep, a, now, c.client.stopping);
  }

  lemma ClientPostKeepsConn(c: Conn, now: nat)
    requires ConnOk(c) && c.client.posted != [] && Enabled(c.client.ep, PushFrame(c.client.posted[0]), now)
    ensures ConnOk(c.(client := StepClient(c.client.(posted := c.client.posted[1..]),
                                           PushFrame(c.client.posted[0]), now, true)))
  {
    var a := PushFrame(c.client.posted[0]);
    ClientPostOk(c.client, now);
    EndpointKept(c.client.ep, a, now, c.client.stopping);
    InletUnlessTake(c.client.ep, a, now, c.client.stopping);
  }

  /** The calls of the client's game thread, and its shutdown flag. */
  lemma ClientCallsKeepConn(c: Conn, payload: Bytes)
    requires ConnOk(c)
    ensures ConnOk(c.(client := SendFromClient(c.client, payload)))
    ensures ConnOk(c.(client := PollClient(c.client)))
    ensures ConnOk(c.(client := c.client.(stopping := true)))
  {
    SendFromClientOk(c.client, payload);
    PollClientOk(c.client);
    StopOnlyCuts(c.client.ep, c.client.posted, c.client.stopping);
  }

  /** Both directions of one connection: what an end delivers is a prefix of what the other end has taken over. */
  lemma BothDirections(c: Conn)
    requires ConnOk(c)
    ensures DataOf(c.client.ep.inlet.heard) <= HandedToSession(c)
    ensures !c.foreign ==> DataOf(c.server.inlet.heard) <= c.client.issued
    ensures Subsequence(c.client.polled, HandedToSession(c))
    ensures c.client.dropped == 0 ==> c.client.polled <= HandedToSession(c)
  {
    HeardIsPrefixOfAccepted(c.client.ep.inlet, c.server.out, c.server.closed);
    if !c.foreign {
      HeardIsPrefixOfAccepted(c.server.inlet, c.client.ep.out, c.client.ep.closed);
    }
    var polled, received := c.client.polled, c.client.received;
    SubsequenceRefl(polled);
    SubsequenceOfExtension(polled, polled, polled + received);
    SubsequenceTrans(polled, polled + received, DataOf(c.client.ep.inlet.heard));
    SubsequenceOfExtension(polled, DataOf(c.client.ep.inlet.heard), HandedToSession(c));
  }
}
