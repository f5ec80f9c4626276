/**
 * What a client can still receive of a session that is closed: the payloads whose frames were wholly on the wire by
 * then. The response to a disconnect request is the common case, since the close follows it at once.
 */
module LastWords {
  import opened Bytes
  import opened Codec
  import opened Stream
  import opened Endpoint
  import opened PacketQueue
  import opened Network
  import opened Channel
  import opened Delivery
  import opened FrameAccounts

  // ----- An open client always has a read pending -----

  ghost predicate Reads(e: Endpoint, stop: bool) {
    !e.closed && !stop ==> e.inlet.op.Read? && !e.inlet.op.doomed
  }

  lemma ReadsKept(e: Endpoint, a: Action, now: nat, stop: bool)
    requires Reads(e, stop) && Enabled(e, a, now) && !(a.OnBody? && a.late)
    ensures Reads(Apply(e, a, now, stop), stop)
  {
    hide DecodeHeader;
  }

  lemma StepReads(c: Client, a: Action, now: nat, room: bool)
    requires Reads(c.ep, c.stopping) && Enabled(c.ep, a, now)
    ensures Reads(StepClient(c, a, now, room).ep, StepClient(c, a, now, room).stopping)
  {
    hide Apply, Enabled;
    if !(a.OnBody? && a.late) {
      ReadsKept(c.ep, a, now, c.stopping);
    }
  }

  predicate ClientMove(m: Move, i: nat) {
    (m.ClientSend? || m.ClientPost? || m.ClientIo? || m.ClientPoll? || m.ClientShutdown? || m.ClientForceClose?)
        && m.n == i
  }

  lemma TaskKeepsClient(net: Net, i: nat)
    requires net.tasks != [] && i < |net.conns|
    ensures i < |StepTask(net).conns| && StepTask(net).conns[i].client == net.conns[i].client
  {
  }

  lemma AcceptKeepsClient(net: Net, now: nat, room: bool, peer: Peer, i: nat)
    requires i < |StepAccept(net, now, room, peer).conns|
    ensures var c := StepAccept(net, now, room, peer).conns[i].client;
            if i < |net.conns| then c == net.conns[i].client else Reads(c.ep, c.stopping)
  {
  }

  lemma SessionKeepsClient(net: Net, m: Move, i: nat)
    requires Allowed(net, m) && (m.SessionPost? || m.SessionIo?) && i < |net.conns|
    ensures i < |Next(net, m).conns| && Next(net, m).conns[i].client == net.conns[i].client
  {
    hide Apply, Enabled, PushAll, CallbackPackets;
  }

  /** Other moves leave a client alone; a new one has just started to read. */
  lemma OthersKeepClient(net: Net, m: Move, i: nat)
    requires Allowed(net, m) && i < |Next(net, m).conns| && !ClientMove(m, i)
    ensures var c := Next(net, m).conns[i].client;
            if i < |net.conns| then c == net.conns[i].client else Reads(c.ep, c.stopping)
  {
    hide Apply, Enabled, StepClient, StepSession, StepTask, StepAccept, SendFromClient, Push, Reads;
    match m {
      case RunTask =>
        if i < |net.conns| {
          TaskKeepsClient(net, i);
        } else {
          TaskKeepsCount(net);
        }
      case Accept(now, room, late, peer) => AcceptKeepsClient(if late then ShutDown(net) else net, now, room, peer, i);
      case SessionPost(_, _, _) =>
        SessionKeepsCount(net, m);
        SessionKeepsClient(net, m, i);
      case SessionIo(_, _, _, _) =>
        SessionKeepsCount(net, m);
        SessionKeepsClient(net, m, i);
      case _ =>
    }
  }

  lemma TaskKeepsCount(net: Net)
    requires net.tasks != []
    ensures |StepTask(net).conns| == |net.conns|
  {
  }

  lemma SessionKeepsCount(net: Net, m: Move)
    requires Allowed(net, m) && (m.SessionPost? || m.SessionIo?)
    ensures |Next(net, m).conns| == |net.conns|
  {
    hide Apply, Enabled, PushAll, CallbackPackets;
  }

  lemma OwnMoveReads(net: Net, m: Move, i: nat)
    requires Allowed(net, m) && ClientMove(m, i) && i < |net.conns|
    requires Reads(net.conns[i].client.ep, net.conns[i].client.stopping)
    ensures i < |Next(net, m).conns|
    ensures var c := Next(net, m).conns[i].client; Reads(c.ep, c.stopping)
  {
    hide Apply, Enabled, StepClient;
    match m {
      case ClientPost(n, now) =>
        var c := net.conns[n].client;
        StepReads(c.(posted := c.posted[1..]), PushFrame(c.posted[0]), now, true);
      case ClientIo(n, a, now, room) => StepReads(net.conns[n].client, a, now, room);
      case ClientForceClose(n, now) => StepReads(net.conns[n].client, ForceCloseNow, now, true);
      case _ =>
    }
  }

  lemma ClientReads(net: Net, m: Move, i: nat)
    requires Allowed(net, m) && i < |Next(net, m).conns|
    requires i < |net.conns| ==> Reads(net.conns[i].client.ep, net.conns[i].client.stopping)
    ensures var c := Next(net, m).conns[i].client; Reads(c.ep, c.stopping)
  {
    hide Next, Reads, Enabled;
    if ClientMove(m, i) {
      OwnMoveReads(net, m, i);
    } else {
      OthersKeepClient(net, m, i);
    }
  }

  lemma {:induction false} ClientsAlwaysRead(moves: seq<Move>, i: nat)
    requires i < |After(moves).conns|
    ensures var c := After(moves).conns[i].client; Reads(c.ep, c.stopping)
  {
    hide Next, Allowed, Reads;
    if moves != [] {
      var init, m := moves[..|moves| - 1], moves[|moves| - 1];
      if i < |After(init).conns| {
        ClientsAlwaysRead(init, i);
      }
      if Allowed(After(init), m) {
        ClientReads(After(init), m, i);
      }
    }
  }

  // ----- No more than that -----

  /** A closed session puts nothing more on the wire. */
  lemma SentStays(net: Net, m: Move, n: nat)
    requires Allowed(net, m) && n < |net.conns| && net.conns[n].server.closed
    ensures n < |Next(net, m).conns|
    ensures var c, c' := net.conns[n], Next(net, m).conns[n];
            c'.server.closed && c'.server.out.sent == c.server.out.sent
  {
    hide Apply, Enabled, StepTask, StepAccept, StepClient, PushAll, CallbackPackets;
    match m {
      case RunTask => TaskPosts(net, n);
      case SessionPost(k, now, _) => ClosedSendsNothing(net.conns[k].server, PostAction(net.conns[k].posted[0]), now);
      case SessionIo(k, a, now, _) => ClosedSendsNothing(net.conns[k].server, a, now);
      case _ => OtherAccounts(net, m, n);
    }
  }

  lemma ClosedSendsNothing(e: Endpoint, a: Action, now: nat)
    requires Enabled(e, a, now)
    ensures e.closed ==> Apply(e, a, now, false).closed && Apply(e, a, now, false).out.sent == e.out.sent
  {
    OutAfter(e, a, now, false);
  }

  lemma {:induction false} SentStaysForGood(moves: seq<Move>, more: seq<Move>, n: nat)
    requires n < |After(moves).conns| && After(moves).conns[n].server.closed
    ensures n < |After(moves + more).conns|
    ensures var c, c' := After(moves).conns[n], After(moves + more).conns[n];
            c'.server.closed && c'.server.out.sent == c.server.out.sent
    decreases |more|
  {
    hide Next, Allowed;
    if more == [] {
      assert moves + more == moves;
    } else {
      var init, m := more[..|more| - 1], more[|more| - 1];
      SentStaysForGood(moves, init, n);
      assert (moves + more)[..|moves + more| - 1] == moves + init;
      if Allowed(After(moves + init), m) {
        SentStays(After(moves + init), m, n);
      }
    }
  }

  /** The payloads of the frames that are wholly on the wire. */
  function OnTheWire(c: Conn): seq<Bytes> { DataOf(Parse(c.server.out.sent).frames) }

  lemma HeardIsOnTheWire(c: Conn)
    requires ConnOk(c)
    ensures c.client.ep.inlet.heard <= Parse(c.server.out.sent).frames
    ensures DataOf(c.client.ep.inlet.heard) <= OnTheWire(c)
  {
    var i, sent := c.client.ep.inlet, c.server.out.sent;
    var rest := sent[|Flatten(i.heard)|..];
    assert sent == Flatten(i.heard) + rest;
    ParseContinues(i.heard, rest, sent);
    DataOfPrefix(i.heard, Parse(sent).frames);
  }

  lemma PolledIsOnTheWire(c: Conn)
    requires ConnOk(c)
    ensures |c.client.polled| <= |OnTheWire(c)|
    ensures c.client.dropped == 0 ==> c.client.polled <= OnTheWire(c)
  {
    HeardIsOnTheWire(c);
  }

  /** What is on the wire was sent to the session. */
  lemma WireWasSent(moves: seq<Move>, n: nat)
    requires n < |After(moves).conns|
    ensures var net, c := After(moves), After(moves).conns[n];
            c.joinedAt <= |net.issued| && OnTheWire(c) <= For(c.id, net.issued[c.joinedAt..])
  {
    hide After, ConnOk, For, Parse, DataOf;
    NetOkAlways(moves);
    var net, c := After(moves), After(moves).conns[n];
    NetOkAt(net, n);
    WireWasHanded(c);
    ForRest(c.id, net.issued, c.joinedAt, net.executed);
  }

  lemma WireWasHanded(c: Conn)
    requires ConnOk(c)
    ensures OnTheWire(c) <= HandedToSession(c)
  {
    SentIsPrefixOfAccepted(c.server.out, c.server.closed);
    ParseOfCutStream(c.server.out.Accepted(), c.server.out.sent);
    DataOfPrefix(Parse(c.server.out.sent).frames, c.server.out.Accepted());
  }

  // ----- No less than that -----

  /** A running client that has lost nothing and polled what it received. */
  ghost predicate Listening(net: Net, n: nat) {
    && HasClient(net, n)
    && var c := net.conns[n].client; !c.ep.closed && !c.stopping && c.dropped == 0 && c.received == []
  }

  /** Bytes on the wire that the client has not taken yet. */
  ghost function Left(net: Net, n: nat): int
    requires n < |net.conns|
  {
    |net.conns[n].server.out.sent| - |net.conns[n].client.ep.inlet.incoming|
  }

  ghost predicate Complete(net: Net, n: nat)
    requires n < |net.conns|
  {
    var op := net.conns[n].client.ep.inlet.op; op.Read? && |op.got| == op.need
  }

  ghost predicate OnlyClientMoved(net: Net, net': Net, n: nat)
    requires n < |net.conns|
  {
    n < |net'.conns| && net'.conns[n] == net.conns[n].(client := net'.conns[n].client)
  }

  lemma {:induction false} PollAll(moves: seq<Move>, n: nat) returns (more: seq<Move>)
    requires HasClient(After(moves), n)
    ensures var net, net' := After(moves), After(moves + more);
            && OnlyClientMoved(net, net', n)
            && var c := net.conns[n].client; net'.conns[n].client == c.(received := [], polled := c.polled + c.received)
    decreases |After(moves).conns[n].client.received|
  {
    hide After;
    var c := After(moves).conns[n].client;
    if c.received == [] {
      more := [];
      assert moves + [] == moves && c.polled + [] == c.polled;
    } else {
      OneMoveMore(moves, ClientPoll(n));
      var rest := PollAll(moves + [ClientPoll(n)], n);
      more := [ClientPoll(n)] + rest;
      assert moves + more == (moves + [ClientPoll(n)]) + rest;
      assert c.polled + c.received == (c.polled + [c.received[0]]) + c.received[1..];
    }
  }

  /** The client's pending read takes the next `k` bytes. */
  lemma TakeBytes(moves: seq<Move>, n: nat, k: nat) returns (m: Move)
    requires Listening(After(moves), n) && k <= Left(After(moves), n)
    requires var i := After(moves).conns[n].client.ep.inlet; i.op.Read? && !i.op.doomed && |i.op.got| + k <= i.op.need
    requires ConnOk(After(moves).conns[n])
    ensures var net, net' := After(moves), After(moves + [m]);
            && OnlyClientMoved(net, net', n) && Listening(net', n) && Left(net', n) == Left(net, n) - k
            && var i, i' := net.conns[n].client.ep.inlet, net'.conns[n].client.ep.inlet;
               && i'.op.Read? && i'.op.want == i.op.want && i'.op.need == i.op.need && !i'.op.doomed
               && |i'.op.got| == |i.op.got| + k && i'.heard == i.heard
  {
    hide After, ConnOk;
    ConnBytes(After(moves).conns[n]);
    var c := After(moves).conns[n];
    var i, sent := c.client.ep.inlet, c.server.out.sent;
    var chunk := sent[|i.incoming|..|i.incoming| + k];
    assert i.incoming + chunk == sent[..|i.incoming| + k];
    m := ClientIo(n, DoTake(chunk), c.client.ep.clock, true);
    OneMoveMore(moves, m);
  }

  lemma ConnBytes(c: Conn)
    requires ConnOk(c)
    ensures c.client.ep.inlet.incoming <= c.server.out.sent && Reader(c.client.ep.inlet)
  {
  }

  /** The handler of a complete read runs, and a payload it delivers is polled. */
  lemma FinishRead(moves: seq<Move>, n: nat) returns (more: seq<Move>)
    requires Listening(After(moves), n) && ConnOk(After(moves).conns[n])
    requires var i := After(moves).conns[n].client.ep.inlet; i.op.Read? && !i.op.doomed && |i.op.got| == i.op.need
    ensures var net, net' := After(moves), After(moves + more);
            && OnlyClientMoved(net, net', n) && Listening(net', n) && Left(net', n) == Left(net, n)
            && var op := net'.conns[n].client.ep.inlet.op;
               op.Read? && !op.doomed && op.got == [] && 0 < op.need
  {
    hide After, ConnOk, DecodeHeader;
    var net := After(moves);
    var c := net.conns[n];
    HeaderFacts(c);
    var m := ClientIo(n, if c.client.ep.inlet.op.want.Head? then OnHeader(true) else OnBody(true, false),
                      c.client.ep.clock, true);
    OneMoveMore(moves, m);
    var rest := PollAll(moves + [m], n);
    more := [m] + rest;
    assert moves + more == (moves + [m]) + rest;
  }

  /** A complete header read of this client is that of a legal header. */
  lemma HeaderFacts(c: Conn)
    requires ConnOk(c) && c.client.ep.inlet.op.Read?
    requires CanFinishRead(c.client.ep.inlet, c.client.ep.inlet.op.want, true)
    ensures var op := c.client.ep.inlet.op;
            op.want.Head? ==>
              && |op.got| == HEADER_SIZE && DecodeHeader(op.got).Ok?
              && (!DecodeHeader(op.got).header.IsKeepalive() ==> 0 < DecodeHeader(op.got).header.payloadSize)
  {
    if c.client.ep.inlet.op.want.Head? {
      HonestHeadersAreAccepted(c.client.ep.inlet, c.server.out, c.server.closed);
    }
  }

  /** The pending read takes what it needs, or all there is; and if it is complete, its handler runs. */
  lemma OneRead(moves: seq<Move>, n: nat) returns (more: seq<Move>, done: bool)
    requires Listening(After(moves), n)
    ensures var net, net' := After(moves), After(moves + more);
            && OnlyClientMoved(net, net', n) && Listening(net', n)
            && if done then net'.conns[n].client.ep.inlet.heard == Parse(net.conns[n].server.out.sent).frames
               else
                 && 0 <= Left(net', n) <= Left(net, n) && !Complete(net', n)
                 && (Left(net', n) == Left(net, n) ==> Complete(net, n))
  {
    hide After, ConnOk, Parse, NetOk, Reader;
    ClientsAlwaysRead(moves, n);
    NetOkAlways(moves);
    NetOkAt(After(moves), n);
    ConnBytes(After(moves).conns[n]);
    ReadNeeds(After(moves).conns[n].client.ep.inlet);
    var i, left := After(moves).conns[n].client.ep.inlet, Left(After(moves), n);
    var wanted := i.op.need - |i.op.got|;
    var k := if wanted <= left then wanted else left;
    var m := TakeBytes(moves, n, k);
    NetOkAlways(moves + [m]);
    NetOkAt(After(moves + [m]), n);
    done := k < wanted;
    if done {
      more := [m];
      AllIsHeard(After(moves + [m]).conns[n]);
    } else {
      var finish := FinishRead(moves + [m], n);
      more := [m] + finish;
      assert moves + more == (moves + [m]) + finish;
    }
  }

  lemma ReadNeeds(i: Inlet)
    requires Reader(i) && i.op.Read?
    ensures |i.op.got| <= i.op.need
  {
  }

  /** The client reads on until every byte on the wire is taken and every complete frame is read. */
  lemma {:induction false} ReadOn(moves: seq<Move>, n: nat) returns (more: seq<Move>)
    requires Listening(After(moves), n)
    ensures var net, net' := After(moves), After(moves + more);
            && OnlyClientMoved(net, net', n) && Listening(net', n)
            && net'.conns[n].client.ep.inlet.heard == Parse(net.conns[n].server.out.sent).frames
    decreases if Left(After(moves), n) < 0 then 0 else Left(After(moves), n), Complete(After(moves), n)
  {
    hide After, Parse, Complete;
    var one, done := OneRead(moves, n);
    if done {
      more := one;
    } else {
      var rest := ReadOn(moves + one, n);
      more := one + rest;
      assert moves + more == (moves + one) + rest;
    }
  }

  lemma AllIsHeard(c: Conn)
    requires ConnOk(c) && c.client.ep.inlet.op.Read? && |c.client.ep.inlet.op.got| < c.client.ep.inlet.op.need
    requires |c.client.ep.inlet.incoming| == |c.server.out.sent|
    ensures c.client.ep.inlet.heard == Parse(c.server.out.sent).frames
  {
    assert c.client.ep.inlet.incoming == c.server.out.sent;
    ReaderRefinesParse(c.client.ep.inlet);
  }

  /** In some continuation the client polls everything that is on the wire. */
  lemma WireIsReadable(moves: seq<Move>, n: nat) returns (more: seq<Move>)
    requires HasClient(After(moves), n)
    requires var c := After(moves).conns[n].client; !c.ep.closed && !c.stopping && c.dropped == 0
    ensures var net' := After(moves + more);
            n < |net'.conns| && net'.conns[n].client.polled == OnTheWire(After(moves).conns[n])
            && net'.conns[n].client.dropped == 0
  {
    hide After, ConnOk, Parse, DataOf;
    var polls := PollAll(moves, n);
    var reading := ReadOn(moves + polls, n);
    more := polls + reading;
    assert moves + more == (moves + polls) + reading;
    NetOkAlways(moves + more);
    NetOkAt(After(moves + more), n);
    PolledAll(After(moves + more).conns[n].client);
  }

  lemma PolledAll(c: Client)
    requires ClientOk(c) && c.dropped == 0 && c.received == []
    ensures c.polled == DataOf(c.ep.inlet.heard)
  {
    assert c.polled + [] == c.polled;
  }

  /** After the continuation, the client has polled no more than the given payloads. */
  ghost predicate Within(moves: seq<Move>, more: seq<Move>, n: nat, words: seq<Bytes>) {
    && n < |After(moves + more).conns|
    && var c := After(moves + more).conns[n].client;
       |c.polled| <= |words| && (c.dropped == 0 ==> c.polled <= words)
  }

  /** After the continuation, the client has polled the first `k` payloads at least. */
  ghost predicate Reaches(moves: seq<Move>, more: seq<Move>, n: nat, k: nat) {
    n < |After(moves + more).conns| && k <= |After(moves + more).conns[n].client.polled|
  }

  /**
   * Exactly what a client can still get from a closed session: in no continuation does it poll more than the payloads
   * whose frames were wholly on the wire at the close, and in some continuation it polls them all. So the k-th payload
   * of those sent to the session, say the response to a disconnect request, can still arrive if and only if its frame
   * was.
   */
  lemma LastWordsExactly(moves: seq<Move>, n: nat, k: nat)
    requires HasClient(After(moves), n) && After(moves).conns[n].server.closed
    requires var c := After(moves).conns[n].client; !c.ep.closed && !c.stopping && c.dropped == 0
    ensures var net, c := After(moves), After(moves).conns[n];
            c.joinedAt <= |net.issued| && OnTheWire(c) <= For(c.id, net.issued[c.joinedAt..])
    ensures forall more :: Within(moves, more, n, OnTheWire(After(moves).conns[n]))
    ensures (exists more :: Reaches(moves, more, n, k)) <==> k <= |OnTheWire(After(moves).conns[n])|
  {
    hide After, ConnOk, Parse, DataOf, For, OnTheWire;
    var words := OnTheWire(After(moves).conns[n]);
    WireWasSent(moves, n);
    forall more ensures Within(moves, more, n, words) {
      SentStaysForGood(moves, more, n);
      NetOkAlways(moves + more);
      NetOkAt(After(moves + more), n);
      SameWire(After(moves).conns[n], After(moves + more).conns[n]);
      PolledIsOnTheWire(After(moves + more).conns[n]);
    }
    var all := WireIsReadable(moves, n);
    assert k <= |words| ==> Reaches(moves, all, n, k);
    assert forall more :: Reaches(moves, more, n, k) ==> Within(moves, more, n, words);
  }

  lemma SameWire(c: Conn, d: Conn)
    requires c.server.out.sent == d.server.out.sent
    ensures OnTheWire(c) == OnTheWire(d)
  {
  }
}
