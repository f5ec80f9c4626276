/**
 * When a Data packet follows the Disconnect of its session: a closed session's read handlers do not test the closed
 * flag.
 */
module LatePackets {
  import opened Bytes
  import opened Codec
  import opened Endpoint
  import opened Drain
  import opened PacketQueue
  import opened Network
  import opened Channel
  import opened Delivery
  import opened Lifecycle

  predicate StepOf(m: Move, n: nat) {
    (m.SessionPost? || m.SessionIo?) && m.n == n
  }

  /** The packets of other sessions, and all other moves, leave a session's life alone. */
  lemma OthersKeepLife(net: Net, m: Move, n: nat)
    requires IdsOk(net) && Conserved(net.inbox) && n < |net.conns| && !StepOf(m, n)
    requires Allowed(net, m) && Next(net, m).accepts <= ID_COUNT
    ensures var net' := Next(net, m);
            && n < |net'.conns| && net'.conns[n].server == net.conns[n].server && net'.conns[n].id == net.conns[n].id
            && LifeOf(net'.inbox.Stream(), net.conns[n].id) == LifeOf(net.inbox.Stream(), net.conns[n].id)
  {
    hide Apply, Enabled, Conserved, CallbackPackets, IdsOk, LifeOf;
    var id := net.conns[n].id;
    match m {
      case Accept(now, room, late, peer) =>
        IdsKept(net, GameShutdown);
        InboxKept(net, GameShutdown);
        OtherMovesKeepServers(net, GameShutdown);
        var open := if late then ShutDown(net) else net;
        AcceptIsCounted(open, now, room, peer);
        NextIdIsFresh(open);
        OtherPacket(open.inbox, Connect(open.nextId), room, id);
      case SessionPost(k, now, room) =>
        DistinctIds(net, k, n);
        OtherSession(net.inbox, net.conns[k].id, net.conns[k].server, PostAction(net.conns[k].posted[0]), now, room,
            id);
      case SessionIo(k, a, now, room) =>
        DistinctIds(net, k, n);
        OtherSession(net.inbox, net.conns[k].id, net.conns[k].server, a, now, room, id);
      case _ => OtherMovesKeepServers(net, m);
    }
  }

  lemma AcceptIsCounted(net: Net, now: nat, room: bool, peer: Peer)
    ensures StepAccept(net, now, room, peer).accepts == net.accepts + 1
  {
  }

  lemma OtherPacket(b: Inbox, p: Packet, room: bool, id: u32)
    requires Conserved(b) && p.id != id
    ensures LifeOf(Push(b, p, room).Stream(), id) == LifeOf(b.Stream(), id)
  {
    PushConserves(b, p, room);
    OnePacketMore(b.Stream(), p, id);
  }

  lemma OtherSession(b: Inbox, own: u32, e: Endpoint, a: Action, now: nat, room: bool, id: u32)
    requires Conserved(b) && own != id && Enabled(e, a, now)
    ensures LifeOf(PushAll(b, CallbackPackets(own, e, a, now), room).Stream(), id) == LifeOf(b.Stream(), id)
  {
    hide Apply, Enabled, Conserved, CallbackPackets, LifeOf, Push;
    CallbackId(own, e, a, now);
    var ps := CallbackPackets(own, e, a, now);
    if ps != [] {
      assert ps[0] in ps;
      OtherPacket(b, ps[0], room, id);
    }
  }

  /** A closed session that is not ripe calls back no more, and stays that way. */
  lemma ClosedIsSilent(id: u32, e: Endpoint, a: Action, now: nat)
    requires Reader(e.inlet) && Enabled(e, a, now) && e.closed && !Ripe(e)
    ensures CallbackPackets(id, e, a, now) == []
    ensures Apply(e, a, now, false).closed && !Ripe(Apply(e, a, now, false))
  {
    hide Apply, Enabled, Delivered, Reader;
    CallbacksMatch(e, a, now, id);
  }

  lemma ReaderOf(c: Conn)
    requires ConnOk(c)
    ensures Reader(c.server.inlet)
  {
  }

  lemma OwnStepIsSilent(net: Net, m: Move, n: nat)
    requires NetOk(net) && n < |net.conns| && StepOf(m, n) && Allowed(net, m)
    requires net.conns[n].server.closed && !Ripe(net.conns[n].server)
    ensures var net' := Next(net, m);
            && n < |net'.conns| && net'.conns[n].server.closed && !Ripe(net'.conns[n].server)
            && net'.conns[n].id == net.conns[n].id && net'.inbox == net.inbox
  {
    hide Apply, Enabled, NetOk, CallbackPackets, Ripe, Push, ConnOk, Fed;
    NetOkAt(net, n);
    ReaderOf(net.conns[n]);
    var c := net.conns[n];
    match m {
      case SessionPost(_, now, _) => ClosedIsSilent(c.id, c.server, PostAction(c.posted[0]), now);
      case SessionIo(_, a, now, _) => ClosedIsSilent(c.id, c.server, a, now);
    }
  }

  /** In no continuation does a closed session that is not ripe deliver anything. */
  lemma {:induction false} NothingMoreArrives(moves: seq<Move>, more: seq<Move>, n: nat)
    requires n < |After(moves).conns| && After(moves).conns[n].server.closed && !Ripe(After(moves).conns[n].server)
    requires After(moves + more).accepts <= ID_COUNT
    ensures var net, net' := After(moves), After(moves + more);
            && n < |net'.conns| && net'.conns[n].server.closed && !Ripe(net'.conns[n].server)
            && net'.conns[n].id == net.conns[n].id
            && LifeOf(net'.inbox.Stream(), net.conns[n].id) == LifeOf(net.inbox.Stream(), net.conns[n].id)
    decreases |more|
  {
    hide Next, Allowed, Ripe, LifeOf, NetOk, IdsOk, Conserved;
    if more == [] {
      assert moves + more == moves;
    } else {
      var init, m := more[..|more| - 1], more[|more| - 1];
      var before := After(moves + init);
      assert moves + more == (moves + init) + [m];
      assert ((moves + init) + [m])[..|moves + init|] == moves + init;
      if Allowed(before, m) {
        AcceptsGrow(before, m);
        NothingMoreArrives(moves, init, n);
        StreamAlwaysOk(moves + init);
        NetOkAlways(moves + init);
        if StepOf(m, n) {
          OwnStepIsSilent(before, m, n);
        } else {
          OthersKeepLife(before, m, n);
        }
      } else {
        NothingMoreArrives(moves, init, n);
      }
    }
  }

  /** A ripe session's handler pushes its payload, once a poll has made room for it. */
  lemma RipeArrives(moves: seq<Move>, n: nat)
    requires n < |After(moves).conns| && Ripe(After(moves).conns[n].server) && !After(moves).inbox.stopping
    requires LifeOf(After(moves).inbox.Stream(), After(moves).conns[n].id) == Gone(0)
    ensures var c := After(moves).conns[n];
            var net' := After(moves + [GamePoll] + [SessionIo(n, OnBody(true, false), c.server.clock, true)]);
            LifeOf(net'.inbox.Stream(), c.id) == Gone(1) && net'.accepts == After(moves).accepts
  {
    hide After, LifeOf, Conserved, Apply;
    StreamAlwaysOk(moves);
    var net := After(moves);
    var c := net.conns[n];
    var m := SessionIo(n, OnBody(true, false), c.server.clock, true);
    OneMoveMore(moves, GamePoll);
    PollConserves(net.inbox);
    PolledHasRoom(net.inbox);
    var polled := Next(net, GamePoll);
    OneMoveMore(moves + [GamePoll], m);
    var p := Data(c.id, c.server.inlet.op.got);
    assert CallbackPackets(c.id, c.server, m.action, m.now) == [p];
    PushConserves(polled.inbox, p, true);
    OnePacketMore(polled.inbox.Stream(), p, c.id);
  }

  lemma PolledHasRoom(b: Inbox)
    requires Conserved(b)
    ensures |Poll(b).queue| < PACKET_QUEUE_CAPACITY
  {
  }

  /**
   * Exactly when a Disconnect can still be followed by Data: while the server runs, some continuation of the run puts a
   * Data packet after a session's Disconnect if and only if a body read was complete when the session closed.
   */
  lemma DataAfterDisconnectExactly(moves: seq<Move>, n: nat)
    requires n < |After(moves).conns| && After(moves).accepts <= ID_COUNT && !After(moves).inbox.stopping
    requires After(moves).conns[n].server.closed
    requires LifeOf(After(moves).inbox.Stream(), After(moves).conns[n].id) == Gone(0)
    ensures (exists more :: && After(moves + more).accepts <= ID_COUNT
                            && LifeOf(After(moves + more).inbox.Stream(), After(moves).conns[n].id) == Gone(1))
            <==> Ripe(After(moves).conns[n].server)
  {
    hide After, LifeOf, Ripe;
    var c := After(moves).conns[n];
    if Ripe(c.server) {
      RipeArrives(moves, n);
      var more := [GamePoll] + [SessionIo(n, OnBody(true, false), c.server.clock, true)];
      assert moves + more == moves + [GamePoll] + [SessionIo(n, OnBody(true, false), c.server.clock, true)];
    } else {
      forall more | After(moves + more).accepts <= ID_COUNT
        ensures LifeOf(After(moves + more).inbox.Stream(), c.id) != Gone(1)
      {
        NothingMoreArrives(moves, more, n);
      }
    }
  }

  /** One session with a complete body, its handler still to come. */
  ghost predicate BodyWaits(net: Net, packets: seq<Packet>, closed: bool) {
    && net.inbox.queue == packets && net.inbox.polled == [] && !net.inbox.stopping
    && |net.conns| == 1 && net.conns[0].id == 1 && net.conns[0].posted == [] && net.table == map[1 := 0]
    && var e := net.conns[0].server;
       Ripe(e) && e.inlet.op.got == [7] && e.closed == closed && e.clock == 0
  }

  /** A step of the first session that neither delivers nor closes. */
  lemma PlayQuietly(moves: seq<Move>, a: Action) returns (more: seq<Move>)
    requires |After(moves).conns| == 1 && After(moves).conns[0].foreign && !a.OnBody?
    requires Enabled(After(moves).conns[0].server, a, 0) && !a.PushFrame? && !a.CloseNow? && !a.ForceCloseNow?
    requires !Apply(After(moves).conns[0].server, a, 0, false).closed
    ensures var net := After(moves);
            After(more) == net.(conns := [net.conns[0].(server := Apply(net.conns[0].server, a, 0, false))])
  {
    hide After, Apply, Enabled;
    more := Play(moves, SessionIo(0, a, 0, true));
    OpenBefore(After(moves).conns[0].server, a);
  }

  lemma OpenBefore(e: Endpoint, a: Action)
    requires Enabled(e, a, 0) && !Apply(e, a, 0, false).closed
    ensures !e.closed
  {
  }

  lemma PeerConnects() returns (moves: seq<Move>)
    ensures After(moves) == Net(2, map[1 := 0], [], EmptyInbox.(queue := [Connect(1)], offered := [Connect(1)]),
                                [Joined(1, 0, 0, 0, Foreign)], 1, [], 0)
  {
    hide After, Joined;
    NothingMoved();
    moves := Play([], Accept(0, true, false, Foreign));
  }

  /** The reader of a fresh session, given a header that announces one byte and that byte. */
  lemma ReadsOneByte(e0: Endpoint)
    requires e0 == Started(0)
    ensures Enabled(e0, DoTake(HeaderBytes(0, 1)), 0)
    ensures var e1 := Apply(e0, DoTake(HeaderBytes(0, 1)), 0, false);
            && !e1.closed && Enabled(e1, OnHeader(true), 0)
            && var e2 := Apply(e1, OnHeader(true), 0, false);
               && !e2.closed && Enabled(e2, DoTake([7]), 0)
               && var e3 := Apply(e2, DoTake([7]), 0, false);
                  !e3.closed && e3.clock == 0 && Ripe(e3) && e3.inlet.op.got == [7]
  {
    hide DecodeHeader;
    HeaderIsAccepted();
    assert [] + HeaderBytes(0, 1) == HeaderBytes(0, 1);
  }

  lemma PayloadArrives() returns (moves: seq<Move>)
    ensures BodyWaits(After(moves), [Connect(1)], false) && After(moves).tasks == []
  {
    hide After, Apply, Enabled, Ripe;
    ReadsOneByte(Started(0));
    moves := PeerConnects();
    moves := PlayQuietly(moves, DoTake(HeaderBytes(0, 1)));
    moves := PlayQuietly(moves, OnHeader(true));
    moves := PlayQuietly(moves, DoTake([7]));
  }

  lemma SessionCloses(moves: seq<Move>) returns (more: seq<Move>)
    requires BodyWaits(After(moves), [Connect(1)], false) && After(moves).tasks == []
    ensures BodyWaits(After(more), [Connect(1), Disconnect(1)], true)
  {
    hide After;
    more := Play(moves, GameDisconnect(1));
    more := Play(more, RunTask);
    more := Play(more, SessionPost(0, 0, true));
  }

  /** Such a run: a peer's header and payload arrive, the game thread disconnects, and then the body handler runs. */
  lemma DataCanFollowDisconnect() returns (moves: seq<Move>)
    ensures After(moves).inbox.polled == [Connect(1), Disconnect(1), Data(1, [7])]
  {
    hide After;
    moves := PayloadArrives();
    moves := SessionCloses(moves);
    moves := Play(moves, SessionIo(0, OnBody(true, false), 0, true));
    moves := Play(moves, GamePoll);
    moves := Play(moves, GamePoll);
    moves := Play(moves, GamePoll);
  }

  lemma HeaderIsAccepted()
    ensures DecodeHeader(HeaderBytes(0, 1)) == Ok(Header(MAGIC, VERSION, 0, 1))
  {
    WriteThenRead(0, 1);
  }

  lemma NothingMoved()
    ensures After([]) == InitialNet
  {
  }

  lemma Play(moves: seq<Move>, m: Move) returns (more: seq<Move>)
    requires Allowed(After(moves), m)
    ensures more == moves + [m] && After(more) == Next(After(moves), m)
  {
    OneMoveMore(moves, m);
    more := moves + [m];
  }
}
