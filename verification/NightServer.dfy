/** The main loop: one round receives, updates and flushes. */
module NightServers {
  import opened Bytes
  import opened PacketQueue
  import opened Network
  import opened ServerTypes
  import opened RoomSystems
  import opened Chat
  import opened ChatViews
  import opened Delivery
  import opened Lifecycle
  import opened Integration
  import opened ChatEffects
  import opened Servers
  import opened NetworkSystems
  import opened GameLogicSystems

  // ----- What a round adds -----

  lemma {:induction false} EventsOfConcat(decode: Decoder, a: seq<Packet>, b: seq<Packet>)
    ensures EventsOf(decode, a + b) == EventsOf(decode, a) + EventsOf(decode, b)
  {
    if b == [] {
      assert a + b == a;
    } else {
      EventsOfConcat(decode, a, b[..|b| - 1]);
      assert (a + b)[..|a + b| - 1] == a + b[..|b| - 1];
    }
  }

  lemma {:induction false} SendsConcat(encode: Encoder, a: seq<OutgoingMessage>, b: seq<OutgoingMessage>)
    ensures Sends(encode, a + b) == Sends(encode, a) + Sends(encode, b)
  {
    if b == [] {
      assert a + b == a;
    } else {
      SendsConcat(encode, a, b[..|b| - 1]);
      assert (a + b)[..|a + b| - 1] == a + b[..|b| - 1];
    }
  }

  /** The entries that Update adds are the events it was given, each handled in a possible order. */
  lemma {:induction false} UpdateHandles(before: seq<Entry>, after: seq<Entry>, events: seq<Event>)
    requires |after| == |before| + |events| && before <= after && Possible(before)
    requires forall i :: 0 <= i < |events| ==>
               && after[|before| + i].event == events[i]
               && GoodOrder(RoomsAfter(after[..|before| + i]), events[i], after[|before| + i].order)
    ensures Possible(after) && EventsIn(after) == EventsIn(before) + events
    decreases |events|
  {
    hide GoodOrder, RoomsAfter;
    if events == [] {
      assert after == before && EventsIn(before) + events == EventsIn(before);
    } else {
      var init, last := after[..|after| - 1], |events| - 1;
      forall i | 0 <= i < last
        ensures init[|before| + i].event == events[i]
        ensures GoodOrder(RoomsAfter(init[..|before| + i]), events[i], init[|before| + i].order)
      {
        assert init[..|before| + i] == after[..|before| + i];
      }
      UpdateHandles(before, init, events[..last]);
      assert after[..|before| + last] == init;
      assert (EventsIn(before) + events[..last]) + [events[last]] == EventsIn(before) + events;
    }
  }

  lemma {:induction false} SiftedFit(size: Message -> nat, ms: seq<OutgoingMessage>)
    ensures forall o :: o in Sift(size, ms) ==> Fits(size, o.message)
  {
    if ms != [] {
      SiftedFit(size, ms[..|ms| - 1]);
    }
  }

  lemma {:induction false} LoggedFit(size: Message -> nat, run: seq<Entry>)
    ensures forall o :: o in Log(size, run) ==> Fits(size, o.message)
  {
    if run != [] {
      LoggedFit(size, run[..|run| - 1]);
      SiftedFit(size, OutcomeOf(RoomsAfter(run[..|run| - 1]), run[|run| - 1]).sent);
    }
  }

  /** Moves that send nothing keep a game thread honest. */
  lemma {:induction false} PlayedQuietly(
    size: Message -> nat, decode: Decoder, encode: Encoder, moves: seq<Move>, seg: seq<Move>)
    requires Played(size, decode, encode, moves)
    requires forall k :: 0 <= k < |seg| ==> OfOthers(seg[k]) || seg[k].GameDisconnect? || seg[k].GamePoll?
    ensures Played(size, decode, encode, moves + seg)
    decreases |seg|
  {
    hide Prompted, After;
    if seg == [] {
      assert moves + seg == moves;
    } else {
      PlayedQuietly(size, decode, encode, moves, seg[..|seg| - 1]);
      assert (moves + seg)[..|moves + seg| - 1] == moves + seg[..|seg| - 1];
    }
  }

  /** Sends of logged messages are prompted by the packets that led to them, whatever others do in between. */
  lemma {:induction false} PlayedSends(
    size: Message -> nat, decode: Decoder, encode: Encoder, moves: seq<Move>, run: seq<Entry>, ms: seq<OutgoingMessage>,
    seg: seq<Move>)
    requires Played(size, decode, encode, moves) && Handles(decode, After(moves).inbox.polled, run)
    requires AllSendable(encode, ms) && !After(moves).inbox.stopping && forall o :: o in ms ==> o in Log(size, run)
    requires Calls(seg) == SendMoves(encode, ms)
    ensures Played(size, decode, encode, moves + seg)
    decreases |seg|
  {
    hide After, Handles, Log, Calls, OfOthers;
    if seg == [] {
      assert moves + seg == moves;
    } else {
      var init, m := seg[..|seg| - 1], seg[|seg| - 1];
      LastSend(encode, ms, seg);
      assert (moves + seg)[..|moves + seg| - 1] == moves + init;
      if OfOthers(m) {
        OthersDoNotSend(m);
        PlayedSends(size, decode, encode, moves, run, ms, init);
      } else {
        var last := ms[|ms| - 1];
        assert last in Log(size, run);
        PlayedSends(size, decode, encode, moves, run, ms[..|ms| - 1], init);
        SendsAreIssued(moves, encode, ms[..|ms| - 1], init);
      }
    }
  }

  lemma OthersDoNotSend(m: Move)
    requires OfOthers(m)
    ensures !m.GameSend? && !m.GameBroadcast?
  {
  }

  /**
   * Between rounds: every polled packet was handled, every message of the log was sent, every disconnect asked for was
   * requested, and nothing else was sent or disconnected.
   */
  ghost predicate InStep(size: Message -> nat, decode: Decoder, encode: Encoder, moves: seq<Move>, run: seq<Entry>) {
    && Handles(decode, After(moves).inbox.polled, run)
    && After(moves).issued == Sends(encode, Log(size, run))
    && Disconnects(moves) == Cuts(run)
    && Played(size, decode, encode, moves)
    && !After(moves).inbox.stopping
  }

  /**
   * Between rounds, the disconnects requested from the transport are those of the disconnect requests among the events
   * of the polled packets, in order, and no others.
   */
  lemma DisconnectsAreThoseAskedFor(
    size: Message -> nat, decode: Decoder, encode: Encoder, moves: seq<Move>, run: seq<Entry>)
    requires InStep(size, decode, encode, moves, run)
    ensures Disconnects(moves) == Leavers(EventsOf(decode, After(moves).inbox.polled))
  {
    hide After, Log, Played, Sends, Disconnects, Possible, EventsIn, EventsOf, Leavers, Cuts;
    CutsAreLeavers(run);
  }

  lemma InStepHandles(size: Message -> nat, decode: Decoder, encode: Encoder, moves: seq<Move>, run: seq<Entry>)
    requires InStep(size, decode, encode, moves, run)
    ensures Possible(run)
  {
  }

  /**
   * A round: while the game thread polls, sends and requests disconnects, the other threads and the clients may make
   * any moves in between. If the run handles the packets polled in the round and its new messages are the ones sent,
   * then afterwards every polled packet is handled, every message of the log is sent, and nothing else was.
   */
  lemma RoundStaysInStep(
    size: Message -> nat, decode: Decoder, encode: Encoder, moves: seq<Move>,
    receiving: seq<Move>, sending: seq<Move>, closing: seq<Move>,
    before: seq<Entry>, after: seq<Entry>, ms: seq<OutgoingMessage>, ids: seq<u32>)
    requires InStep(size, decode, encode, moves, before) && Sized(size, encode)
    requires forall k :: 0 <= k < |receiving| ==> OfOthers(receiving[k]) || receiving[k].GamePoll?
    requires Calls(sending) == SendMoves(encode, ms) && Calls(closing) == DisconnectMoves(ids)
    requires After(moves).inbox.polled <= After(moves + receiving).inbox.polled
    requires Possible(after) && Log(size, after) == Log(size, before) + ms && Cuts(after) == Cuts(before) + ids
    requires EventsIn(after) == EventsIn(before)
                                + EventsOf(decode, After(moves + receiving).inbox.polled[|After(moves).inbox.polled|..])
    ensures var moves' := moves + receiving + sending + closing;
            && InStep(size, decode, encode, moves', after)
            && After(moves').inbox.polled == After(moves + receiving).inbox.polled
  {
    hide After, Possible, Log, Played, EventsOf, EventsIn, Sends, OfOthers, Calls, Handles, Sized;
    ReceivingStaysInStep(size, decode, encode, moves, receiving, before, after);
    SendingStaysInStep(size, decode, encode, moves + receiving, sending, before, after, ms);
    ClosingStaysInStep(size, decode, encode, moves + receiving + sending, closing, after, ids);
    RoundRequests(encode, moves, receiving, sending, closing, ms, ids);
  }

  lemma RoundRequests(encode: Encoder, moves: seq<Move>, receiving: seq<Move>, sending: seq<Move>, closing: seq<Move>,
      ms: seq<OutgoingMessage>, ids: seq<u32>)
    requires forall k :: 0 <= k < |receiving| ==> OfOthers(receiving[k]) || receiving[k].GamePoll?
    requires Calls(sending) == SendMoves(encode, ms) && Calls(closing) == DisconnectMoves(ids)
    ensures Disconnects(moves + receiving + sending + closing) == Disconnects(moves) + ids
  {
    NoDisconnects(moves, receiving);
    OnlySends(encode, ms, sending);
    NoDisconnects(moves + receiving, sending);
    DisconnectsAreRequested(moves + receiving + sending, ids, closing);
  }

  lemma {:induction false} OnlySends(encode: Encoder, ms: seq<OutgoingMessage>, seg: seq<Move>)
    requires Calls(seg) == SendMoves(encode, ms)
    ensures forall k :: 0 <= k < |seg| ==> !seg[k].GameDisconnect?
    decreases |seg|
  {
    hide Calls;
    if seg != [] {
      LastSend(encode, ms, seg);
      OnlySends(encode, if OfOthers(seg[|seg| - 1]) then ms else ms[..|ms| - 1], seg[..|seg| - 1]);
    }
  }

  lemma ReceivingStaysInStep(
    size: Message -> nat, decode: Decoder, encode: Encoder, moves: seq<Move>, receiving: seq<Move>,
    before: seq<Entry>, after: seq<Entry>)
    requires InStep(size, decode, encode, moves, before) && Possible(after)
    requires forall k :: 0 <= k < |receiving| ==> OfOthers(receiving[k]) || receiving[k].GamePoll?
    requires After(moves).inbox.polled <= After(moves + receiving).inbox.polled
    requires EventsIn(after) == EventsIn(before)
                                + EventsOf(decode, After(moves + receiving).inbox.polled[|After(moves).inbox.polled|..])
    ensures var net := After(moves + receiving);
            && Handles(decode, net.inbox.polled, after) && net.issued == After(moves).issued && !net.inbox.stopping
            && Played(size, decode, encode, moves + receiving)
  {
    hide After, Possible, Log, Played, Handles, EventsOf, EventsIn, Sends, OfOthers, Disconnects, Cuts;
    var was, polled := After(moves).inbox.polled, After(moves + receiving).inbox.polled;
    Polling(moves, receiving);
    assert polled == was + polled[|was|..];
    HandlesMore(decode, was, polled[|was|..], before, after);
    PlayedQuietly(size, decode, encode, moves, receiving);
  }

  lemma HandlesMore(decode: Decoder, was: seq<Packet>, more: seq<Packet>, before: seq<Entry>, after: seq<Entry>)
    requires Handles(decode, was, before) && Possible(after)
             && EventsIn(after) == EventsIn(before) + EventsOf(decode, more)
    ensures Handles(decode, was + more, after)
  {
    hide GoodDecoder, EventsOf, EventsIn, Possible;
    EventsOfConcat(decode, was, more);
  }

  lemma SendingStaysInStep(
    size: Message -> nat, decode: Decoder, encode: Encoder, received: seq<Move>, sending: seq<Move>,
    before: seq<Entry>, after: seq<Entry>, ms: seq<OutgoingMessage>)
    requires Handles(decode, After(received).inbox.polled, after) && !After(received).inbox.stopping
    requires Played(size, decode, encode, received) && After(received).issued == Sends(encode, Log(size, before))
    requires Sized(size, encode) && Calls(sending) == SendMoves(encode, ms)
    requires Log(size, after) == Log(size, before) + ms
    ensures var net := After(received + sending);
            && net.inbox.polled == After(received).inbox.polled && !net.inbox.stopping
            && net.issued == Sends(encode, Log(size, after)) && Played(size, decode, encode, received + sending)
  {
    hide After, Log, Played, Handles, Sends, AllSendable, Calls, Sized;
    LoggedSendable(size, encode, after, ms);
    SendsAreIssued(received, encode, ms, sending);
    SendsConcat(encode, Log(size, before), ms);
    PlayedSends(size, decode, encode, received, after, ms, sending);
  }

  lemma ClosingStaysInStep(
    size: Message -> nat, decode: Decoder, encode: Encoder, sent: seq<Move>, closing: seq<Move>, after: seq<Entry>,
    ids: seq<u32>)
    requires Calls(closing) == DisconnectMoves(ids) && Played(size, decode, encode, sent)
    ensures var net, net' := After(sent), After(sent + closing);
            && net'.inbox.polled == net.inbox.polled && net'.inbox.stopping == net.inbox.stopping
            && net'.issued == net.issued && Played(size, decode, encode, sent + closing)
  {
    hide After, Log, Played, Handles, Sends, Calls;
    DisconnectsAreRequested(sent, ids, closing);
    Polling(sent, closing);
    PlayedQuietly(size, decode, encode, sent, closing);
  }

  lemma LoggedSendable(size: Message -> nat, encode: Encoder, run: seq<Entry>, ms: seq<OutgoingMessage>)
    requires Sized(size, encode) && forall o :: o in ms ==> o in Log(size, run)
    ensures AllSendable(encode, ms)
  {
    LoggedFit(size, run);
    LogIsBuildable(size, run);
    assert forall o :: o in ms ==> Fits(size, o.message) && Buildable(o.message);
  }

  /** Between rounds the I/O threads go on; none of their moves unsettles the game thread. */
  lemma OtherMovesKeepStep(
    size: Message -> nat, decode: Decoder, encode: Encoder, moves: seq<Move>, run: seq<Entry>, m: Move)
    requires InStep(size, decode, encode, moves, run) && OfOthers(m)
    ensures InStep(size, decode, encode, moves + [m], run)
  {
    hide Next, Handles, Sends, Log, Played;
    PlayedQuietly(size, decode, encode, moves, [m]);
    Polling(moves, [m]);
    NoDisconnects(moves, [m]);
  }

  class NightServer {
    const network: NetworkSystem
    const game: GameLogicSystem

    /** The two systems, between rounds, after the transport made the given moves. */
    ghost predicate Settled(moves: seq<Move>)
      reads this, network, network.server, network.server.core, network.server.conns, game, game.roomSystem
    {
      && network.server.Refines(After(moves))
      && game.Valid() && game.outgoingMessages == [] && game.pendingDisconnects == []
      && InStep(game.size, network.decode, network.encode, moves, game.history)
      && Sized(game.size, network.encode)
    }

    constructor (size: Message -> nat, decode: Decoder, encode: Encoder)
      requires GoodDecoder(decode) && Sized(size, encode)
      ensures Settled([]) && game.size == size && network.encode == encode
    {
      var server := new Server();
      network := new NetworkSystem(server, decode, encode);
      var rooms := new RoomSystem();
      game := new GameLogicSystem(rooms, size);
    }

    /**
     * The body of the main loop. Every packet that waited at the start of the round is polled in it, and so, being in
     * step, handled, with its messages sent and its disconnects requested. Before every call of the transport the other
     * threads may go on, for as long as `pauses` and `pause` say.
     */
    method Tick(pauses: seq<nat>, pause: nat, ghost moves: seq<Move>) returns (ghost moves': seq<Move>)
      requires Settled(moves)
      modifies network.server, network.server.core, network.server.conns, game, game.roomSystem
      ensures Settled(moves') && moves <= moves'
      ensures After(moves).inbox.Stream() <= After(moves').inbox.polled
      ensures forall i :: 0 <= i < |network.server.conns| ==>
                network.server.conns[i] in old(network.server.conns) || fresh(network.server.conns[i])
    {
      hide After, Server.Refines, InStep, RoomsAfter, Log, Cuts, GoodOrder, Possible, EventsIn, EventsOf, OfOthers,
           Calls, Sized;
      ghost var before, was := game.history, After(moves).inbox.polled;
      var events, received := network.Receive(pauses, moves);
      game.Update(events);
      var messages := game.TakeOutgoingMessages();
      var ids := game.TakePendingDisconnects();
      ghost var sending, closing := network.Flush(messages, ids, pause, received);
      InStepHandles(game.size, network.decode, network.encode, moves, before);
      UpdateHandles(before, game.history, events);
      ghost var receiving := received[|moves|..];
      assert moves + receiving == received;
      RoundStaysInStep(game.size, network.decode, network.encode, moves, receiving, sending, closing,
                       before, game.history, messages, ids);
      StreamOnlyGrows(moves, receiving);
      assert After(received).inbox.polled + [] == After(received).inbox.polled;
      moves' := received + sending + closing;
    }

    /**
     * Between rounds, a client that dropped nothing has polled an initial part of the messages for it, and once it has
     * polled all of them, folding them gives its room and its companions in the server's own tables.
     */
    lemma ClientSeesTheServer(moves: seq<Move>, n: nat, read: Reading)
      requires Settled(moves) && EncodingBounded(game.size) && Readable(network.encode, read)
      requires n < |After(moves).conns| && After(moves).accepts <= ID_COUNT && After(moves).conns[n].client.dropped == 0
      requires After(moves).conns[n].id in game.roomSystem.sessions
      ensures var c := After(moves).conns[n];
              var sent := For(c.id, After(moves).issued);
              && c.client.polled <= sent
              && (|c.client.polled| == |sent| ==> Watch(read, c.client.polled) == Truth(game.roomSystem.View(), c.id))
    {
      hide After, Server.Refines, RoomsAfter, Log, Cuts, Played, Handles, Truth, Watch, For, Sends;
      ClientSeesItsRoom(moves, n, game.history, game.size, network.decode, network.encode, read);
    }
  }
}
