/** The joint between transport and game logic: draining packets into events, and sending what the game logic queued. */
module NetworkSystems {
  import opened Bytes
  import opened Codec
  import opened PacketQueue
  import opened Network
  import opened Endpoint
  import opened ServerTypes
  import opened Integration
  import opened Servers

  // ----- The game thread's calls among the moves of all threads -----

  function SendMoves(encode: Encoder, ms: seq<OutgoingMessage>): seq<Move> {
    if ms == [] then [] else
      SendMoves(encode, ms[..|ms| - 1]) + [GameSend(ms[|ms| - 1].sessionId, encode(ms[|ms| - 1].message))]
  }

  function DisconnectMoves(ids: seq<u32>): seq<Move> {
    if ids == [] then [] else DisconnectMoves(ids[..|ids| - 1]) + [GameDisconnect(ids[|ids| - 1])]
  }

  /** The calls of the game thread, without what the other threads did in between. */
  function Calls(moves: seq<Move>): seq<Move> {
    if moves == [] then [] else
      Calls(moves[..|moves| - 1]) + if OfOthers(moves[|moves| - 1]) then [] else [moves[|moves| - 1]]
  }

  lemma {:induction false} CallsConcat(a: seq<Move>, b: seq<Move>)
    ensures Calls(a + b) == Calls(a) + Calls(b)
  {
    hide OfOthers;
    if b == [] {
      assert a + b == a;
    } else {
      CallsConcat(a, b[..|b| - 1]);
      assert (a + b)[..|a + b| - 1] == a + b[..|b| - 1];
    }
  }

  lemma {:induction false} OthersMakeNoCalls(moves: seq<Move>)
    requires forall k :: 0 <= k < |moves| ==> OfOthers(moves[k])
    ensures Calls(moves) == []
  {
    hide OfOthers;
    if moves != [] {
      OthersMakeNoCalls(moves[..|moves| - 1]);
    }
  }

  /** The sessions the game thread asked to disconnect, in order. */
  function Disconnects(moves: seq<Move>): seq<u32> {
    if moves == [] then [] else
      Disconnects(moves[..|moves| - 1])
      + if moves[|moves| - 1].GameDisconnect? then [moves[|moves| - 1].id] else []
  }

  lemma {:induction false} NoDisconnects(moves: seq<Move>, seg: seq<Move>)
    requires forall k :: 0 <= k < |seg| ==> !seg[k].GameDisconnect?
    ensures Disconnects(moves + seg) == Disconnects(moves)
    decreases |seg|
  {
    if seg == [] {
      assert moves + seg == moves;
    } else {
      NoDisconnects(moves, seg[..|seg| - 1]);
      assert (moves + seg)[..|moves + seg| - 1] == moves + seg[..|seg| - 1];
    }
  }

  /** The last of some disconnects among other moves. */
  lemma LastDisconnect(ids: seq<u32>, seg: seq<Move>)
    requires Calls(seg) == DisconnectMoves(ids) && seg != []
    ensures var init, m := seg[..|seg| - 1], seg[|seg| - 1];
            if OfOthers(m) then Calls(init) == DisconnectMoves(ids)
            else
              && ids != [] && m == GameDisconnect(ids[|ids| - 1])
              && Calls(init) == DisconnectMoves(ids[..|ids| - 1])
  {
    hide OfOthers;
    var init, m := seg[..|seg| - 1], seg[|seg| - 1];
    if OfOthers(m) {
      assert Calls(init) + [] == Calls(init);
    } else {
      assert Calls(seg)[|Calls(seg)| - 1] == m && Calls(seg)[..|Calls(seg)| - 1] == Calls(init);
      assert DisconnectMoves(ids) != [];
    }
  }

  lemma NoDisconnectCalls(ids: seq<u32>)
    requires Calls([]) == DisconnectMoves(ids)
    ensures ids == []
  {
  }

  /** Every disconnect is requested, in order, whatever the other threads do in between. */
  lemma {:induction false} DisconnectsAreRequested(moves: seq<Move>, ids: seq<u32>, seg: seq<Move>)
    requires Calls(seg) == DisconnectMoves(ids)
    ensures Disconnects(moves + seg) == Disconnects(moves) + ids
    ensures forall k :: 0 <= k < |seg| ==> OfOthers(seg[k]) || seg[k].GameDisconnect?
    decreases |seg|
  {
    hide Calls;
    if seg == [] {
      NoDisconnectCalls(ids);
      assert moves + seg == moves;
    } else {
      var init, m := seg[..|seg| - 1], seg[|seg| - 1];
      LastDisconnect(ids, seg);
      assert (moves + seg)[..|moves + seg| - 1] == moves + init;
      if OfOthers(m) {
        DisconnectsAreRequested(moves, ids, init);
      } else {
        DisconnectsAreRequested(moves, ids[..|ids| - 1], init);
        assert ids == ids[..|ids| - 1] + [ids[|ids| - 1]];
      }
    }
  }

  lemma PushGrows(b: Inbox, ps: seq<Packet>, room: bool)
    requires |ps| <= 1
    ensures b.Stream() <= PushAll(b, ps, room).Stream()
    ensures ps != [] ==> PushAll(b, ps, room) == Push(b, ps[0], room)
  {
  }

  lemma PollKeepsStream(b: Inbox)
    ensures Poll(b).Stream() == b.Stream()
  {
    if b.queue != [] {
      assert b.queue == [b.queue[0]] + b.queue[1..];
    }
  }

  /** Packets that got through stay in the stream, whatever anybody does. */
  lemma StreamGrows(net: Net, m: Move)
    requires Allowed(net, m)
    ensures net.inbox.Stream() <= Next(net, m).inbox.Stream()
  {
    hide Enabled, Apply, Push, PushAll, Poll, CallbackPackets, StepClient;
    match m {
      case Accept(_, room, late, _) =>
        PushGrows((if late then ShutDown(net) else net).inbox, [Connect(net.nextId)], room);
      case SessionPost(n, now, room) =>
        var c := net.conns[n];
        PushGrows(net.inbox, CallbackPackets(c.id, c.server, PostAction(c.posted[0]), now), room);
      case SessionIo(n, a, now, room) =>
        PushGrows(net.inbox, CallbackPackets(net.conns[n].id, net.conns[n].server, a, now), room);
      case GamePoll => PollKeepsStream(net.inbox);
      case _ =>
    }
  }

  lemma {:induction false} StreamOnlyGrows(moves: seq<Move>, seg: seq<Move>)
    ensures After(moves).inbox.Stream() <= After(moves + seg).inbox.Stream()
    decreases |seg|
  {
    hide Next, Allowed;
    if seg == [] {
      assert moves + seg == moves;
    } else {
      var init, m := seg[..|seg| - 1], seg[|seg| - 1];
      StreamOnlyGrows(moves, init);
      assert (moves + seg)[..|moves + seg| - 1] == moves + init;
      if Allowed(After(moves + init), m) {
        StreamGrows(After(moves + init), m);
      }
    }
  }

  /** The other threads and the disconnects leave what the game thread has polled and issued alone. */
  lemma QuietMove(net: Net, m: Move)
    requires Allowed(net, m) && (OfOthers(m) || m.GameDisconnect?)
    ensures var net' := Next(net, m);
            net'.issued == net.issued && net'.inbox.polled == net.inbox.polled
                && net'.inbox.stopping == net.inbox.stopping
  {
    hide Enabled, Apply;
  }

  /** What a stretch of moves may do to the game thread's part of the state, polls and disconnects included. */
  lemma {:induction false} Polling(moves: seq<Move>, seg: seq<Move>)
    requires forall k :: 0 <= k < |seg| ==> OfOthers(seg[k]) || seg[k].GameDisconnect? || seg[k].GamePoll?
    ensures var net, net' := After(moves), After(moves + seg);
            && net.inbox.polled <= net'.inbox.polled
            && net'.issued == net.issued && net'.inbox.stopping == net.inbox.stopping
            && ((forall k :: 0 <= k < |seg| ==> !seg[k].GamePoll?) ==> net'.inbox.polled == net.inbox.polled)
    decreases |seg|
  {
    hide Next, Allowed, OfOthers;
    if seg == [] {
      assert moves + seg == moves;
    } else {
      var init, m := seg[..|seg| - 1], seg[|seg| - 1];
      Polling(moves, init);
      assert (moves + seg)[..|moves + seg| - 1] == moves + init;
      if Allowed(After(moves + init), m) {
        if m.GamePoll? {
          OnePoll(After(moves + init));
        } else {
          QuietMove(After(moves + init), m);
        }
      }
    }
  }

  lemma OnePoll(net: Net)
    ensures Allowed(net, GamePoll)
    ensures var net', b := Next(net, GamePoll), net.inbox;
            && net'.issued == net.issued && net'.inbox.stopping == b.stopping
            && net'.inbox.polled == b.polled + (if b.queue == [] then [] else [b.queue[0]])
            && net'.inbox.queue == if b.queue == [] then [] else b.queue[1..]
  {
  }

  function Polls(n: nat): seq<Move> {
    if n == 0 then [] else Polls(n - 1) + [GamePoll]
  }

  /** Undisturbed polls take the oldest packets, in order, and touch nothing else. */
  lemma {:induction false} PollsTakeTheOldest(moves: seq<Move>, n: nat)
    requires n <= |After(moves).inbox.queue|
    ensures var net := After(moves);
            After(moves + Polls(n)) == net.(inbox := net.inbox.(queue := net.inbox.queue[n..],
                                                                polled := net.inbox.polled + net.inbox.queue[..n]))
  {
    hide After;
    if n == 0 {
      assert moves + Polls(0) == moves;
    } else {
      PollsTakeTheOldest(moves, n - 1);
      OneMoveMore(moves + Polls(n - 1), GamePoll);
      assert (moves + Polls(n - 1)) + [GamePoll] == moves + Polls(n);
    }
  }

  ghost predicate AllSendable(encode: Encoder, ms: seq<OutgoingMessage>) {
    forall o :: o in ms ==> SendablePayload(encode(o.message))
  }

  /** The last of some sends among other moves. */
  lemma LastSend(encode: Encoder, ms: seq<OutgoingMessage>, seg: seq<Move>)
    requires Calls(seg) == SendMoves(encode, ms) && seg != []
    ensures var init, m := seg[..|seg| - 1], seg[|seg| - 1];
            if OfOthers(m) then Calls(init) == SendMoves(encode, ms)
            else
              && ms != [] && m == GameSend(ms[|ms| - 1].sessionId, encode(ms[|ms| - 1].message))
              && Calls(init) == SendMoves(encode, ms[..|ms| - 1])
  {
    hide OfOthers;
    var init, m := seg[..|seg| - 1], seg[|seg| - 1];
    if OfOthers(m) {
      assert Calls(init) + [] == Calls(init);
    } else {
      assert Calls(seg)[|Calls(seg)| - 1] == m && Calls(seg)[..|Calls(seg)| - 1] == Calls(init);
      assert SendMoves(encode, ms) != [];
    }
  }

  /** Every send is issued, in order, whatever the other threads do in between. */
  lemma {:induction false} SendsAreIssued(moves: seq<Move>, encode: Encoder, ms: seq<OutgoingMessage>, seg: seq<Move>)
    requires AllSendable(encode, ms) && !After(moves).inbox.stopping && Calls(seg) == SendMoves(encode, ms)
    ensures var net, net' := After(moves), After(moves + seg);
            && net'.issued == net.issued + Sends(encode, ms)
            && net'.inbox.polled == net.inbox.polled && !net'.inbox.stopping
    decreases |seg|
  {
    hide Next, Allowed, OfOthers, Calls;
    if seg == [] {
      NoCalls(encode, ms);
      assert moves + seg == moves;
    } else {
      var init, m := seg[..|seg| - 1], seg[|seg| - 1];
      LastSend(encode, ms, seg);
      assert (moves + seg)[..|moves + seg| - 1] == moves + init;
      if OfOthers(m) {
        SendsAreIssued(moves, encode, ms, init);
        if Allowed(After(moves + init), m) {
          QuietMove(After(moves + init), m);
        }
      } else {
        assert ms[|ms| - 1] in ms;
        SendsAreIssued(moves, encode, ms[..|ms| - 1], init);
        OneSend(After(moves + init), m.id, m.payload);
      }
    }
  }

  lemma NoCalls(encode: Encoder, ms: seq<OutgoingMessage>)
    requires Calls([]) == SendMoves(encode, ms)
    ensures ms == []
  {
  }

  lemma OneSend(net: Net, id: u32, payload: Bytes)
    requires SendablePayload(payload) && !net.inbox.stopping
    ensures Allowed(net, GameSend(id, payload))
    ensures Next(net, GameSend(id, payload)).issued == net.issued + [SendOp(id, payload)]
    ensures Next(net, GameSend(id, payload)).inbox == net.inbox
  {
  }

  lemma NoEvents(decode: Decoder)
    ensures EventsOf(decode, []) == []
  {
  }

  lemma EventsSnoc(decode: Decoder, ps: seq<Packet>, p: Packet)
    ensures EventsOf(decode, ps + [p])
            == EventsOf(decode, ps) + match EventOf(decode, p) case Some(e) => [e] case None => []
  {
    assert (ps + [p])[..|ps|] == ps;
  }

  // ----- The class -----

  class NetworkSystem {
    const server: Server
    const decode: Decoder
    const encode: Encoder

    constructor (server: Server, decode: Decoder, encode: Encoder)
      ensures this.server == server && this.decode == decode && this.encode == encode
    {
      this.server := server;
      this.decode := decode;
      this.encode := encode;
    }

    /**
     * Packets are polled and translated in order until a poll finds the hand-off queue empty. Before each poll the
     * other threads may go on; `pauses` bounds how long they do, since a queue that is filled forever is polled
     * forever.
     */
    method Receive(pauses: seq<nat>, ghost moves: seq<Move>) returns (events: seq<Event>, ghost moves': seq<Move>)
      requires server.Refines(After(moves))
      modifies server, server.core, server.conns
      ensures server.Refines(After(moves')) && moves <= moves'
      ensures forall k :: |moves| <= k < |moves'| ==> OfOthers(moves'[k]) || moves'[k].GamePoll?
      ensures After(moves).inbox.polled <= After(moves').inbox.polled && After(moves').inbox.queue == []
      ensures events == EventsOf(decode, After(moves').inbox.polled[|After(moves).inbox.polled|..])
      ensures forall i :: 0 <= i < |server.conns| ==> server.conns[i] in old(server.conns) || fresh(server.conns[i])
    {
      hide After, server.Refines, OfOthers, EventsOf;
      NoEvents(decode);
      ghost var before, handled := After(moves).inbox.polled, [];
      events := [];
      var n := 0;
      var packet;
      packet, moves' := PollNext(if pauses == [] then 0 else pauses[0], moves);
      while packet.Some?
        invariant n <= |pauses| && server.Refines(After(moves')) && moves <= moves'
        invariant forall k :: |moves| <= k < |moves'| ==> OfOthers(moves'[k]) || moves'[k].GamePoll?
        invariant After(moves').inbox.polled == before + handled + (if packet.Some? then [packet.value] else [])
        invariant events == EventsOf(decode, handled)
        invariant packet.None? ==> After(moves').inbox.queue == []
        invariant forall i :: 0 <= i < |server.conns| ==> server.conns[i] in old(server.conns) || fresh(server.conns[i])
        decreases |pauses| - n, |After(moves').inbox.queue|, packet.Some?
      {
        EventsSnoc(decode, handled, packet.value);
        match packet.value {
          case Connect(id) => events := events + [SessionConnected(id)];
          case Disconnect(id) => events := events + [SessionDisconnected(id)];
          case Data(id, payload) =>
            var decoded := decode(id, payload);
            if decoded.Some? {
              events := events + [decoded.value];
            }
        }
        handled := handled + [packet.value];
        n := if n < |pauses| then n + 1 else n;
        packet, moves' := PollNext(if n < |pauses| then pauses[n] else 0, moves');
      }
      assert before + handled + [] == before + handled && (before + handled)[|before|..] == handled;
    }

    /** One poll, after the other threads went on for a while. */
    method PollNext(pause: nat, ghost moves: seq<Move>) returns (packet: Option<Packet>, ghost moves': seq<Move>)
      requires server.Refines(After(moves))
      modifies server, server.core, server.conns
      ensures server.Refines(After(moves')) && moves <= moves'
      ensures forall k :: |moves| <= k < |moves'| ==> OfOthers(moves'[k]) || moves'[k].GamePoll?
      ensures After(moves').inbox.polled == After(moves).inbox.polled + if packet.Some? then [packet.value] else []
      ensures packet.None? ==> After(moves').inbox.queue == []
      ensures pause == 0 && packet.Some? ==> |After(moves').inbox.queue| < |After(moves).inbox.queue|
      ensures forall i :: 0 <= i < |server.conns| ==> server.conns[i] in old(server.conns) || fresh(server.conns[i])
    {
      hide After, server.Refines, Next;
      moves' := moves;
      if pause > 0 {
        moves' := server.OtherThreads(pause, moves);
        Polling(moves, moves'[|moves|..]);
        assert moves + moves'[|moves|..] == moves';
      }
      packet := server.PollPacket(After(moves'));
      OnePoll(After(moves'));
      OneMoveMore(moves', GamePoll);
      moves' := moves' + [GamePoll];
    }

    /** All messages are sent, in order, then the disconnects requested; other threads may go on before each call. */
    method Flush(messages: seq<OutgoingMessage>, ids: seq<u32>, pause: nat, ghost moves: seq<Move>)
      returns (ghost sending: seq<Move>, ghost closing: seq<Move>)
      requires server.Refines(After(moves))
      modifies server, server.core, server.conns
      ensures server.Refines(After(moves + sending + closing))
      ensures Calls(sending) == SendMoves(encode, messages) && Calls(closing) == DisconnectMoves(ids)
      ensures forall i :: 0 <= i < |server.conns| ==> server.conns[i] in old(server.conns) || fresh(server.conns[i])
    {
      hide After, server.Refines, OfOthers, Next, Calls;
      NothingCalled();
      sending := [];
      assert moves + [] == moves;
      var n := 0;
      while n < |messages|
        invariant 0 <= n <= |messages|
        invariant server.Refines(After(moves + sending)) && Calls(sending) == SendMoves(encode, messages[..n])
        invariant forall i :: 0 <= i < |server.conns| ==> server.conns[i] in old(server.conns) || fresh(server.conns[i])
      {
        sending := Pause(pause, moves, sending);
        ghost var m := GameSend(messages[n].sessionId, encode(messages[n].message));
        server.Send(messages[n].sessionId, encode(messages[n].message), After(moves + sending));
        OneCallMore(moves, sending, m);
        assert messages[..n + 1][..n] == messages[..n];
        sending := sending + [m];
        n := n + 1;
      }
      assert messages[..n] == messages;
      closing := [];
      assert moves + sending + [] == moves + sending;
      n := 0;
      while n < |ids|
        invariant 0 <= n <= |ids|
        invariant server.Refines(After(moves + sending + closing)) && Calls(closing) == DisconnectMoves(ids[..n])
        invariant forall i :: 0 <= i < |server.conns| ==> server.conns[i] in old(server.conns) || fresh(server.conns[i])
      {
        closing := Pause(pause, moves + sending, closing);
        server.Disconnect(ids[n], After(moves + sending + closing));
        OneCallMore(moves + sending, closing, GameDisconnect(ids[n]));
        assert ids[..n + 1][..n] == ids[..n];
        closing := closing + [GameDisconnect(ids[n])];
        n := n + 1;
      }
      assert ids[..n] == ids;
    }

    /** The other threads go on, after `moves` and what the game thread did in `seg`. */
    method Pause(pause: nat, ghost moves: seq<Move>, ghost seg: seq<Move>) returns (ghost seg': seq<Move>)
      requires server.Refines(After(moves + seg))
      modifies server, server.core, server.conns
      ensures server.Refines(After(moves + seg')) && Calls(seg') == Calls(seg)
      ensures forall i :: 0 <= i < |server.conns| ==> server.conns[i] in old(server.conns) || fresh(server.conns[i])
    {
      hide After, server.Refines, OfOthers, Calls;
      ghost var moves' := server.OtherThreads(pause, moves + seg);
      ghost var more := moves'[|moves + seg|..];
      OthersMakeNoCalls(more);
      CallsConcat(seg, more);
      seg' := seg + more;
      assert moves + seg' == moves';
      assert Calls(seg) + [] == Calls(seg);
    }
  }

  lemma NothingCalled()
    ensures Calls([]) == []
  {
  }

  /** A call of the game thread that is possible. */
  lemma OneCallMore(moves: seq<Move>, seg: seq<Move>, m: Move)
    requires m.GameSend? || m.GameDisconnect?
    ensures Calls(seg + [m]) == Calls(seg) + [m]
    ensures After(moves + (seg + [m])) == Next(After(moves + seg), m)
  {
    hide After, Next;
    assert (seg + [m])[..|seg|] == seg;
    OneMoveMore(moves + seg, m);
    assert moves + (seg + [m]) == (moves + seg) + [m];
  }
}
