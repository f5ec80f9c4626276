/** From a client's request to the response it polls: over the network, through the game logic, and back. */
module RequestPath {
  import opened Bytes
  import opened PacketQueue
  import opened Network
  import opened Delivery
  import opened Lifecycle
  import opened ServerTypes
  import opened RoomSystems
  import opened Chat
  import opened ChatViews
  import opened ChatResponses
  import opened Integration

  // ----- What a client may expect -----

  /** The request an event makes. */
  function RequestIn(e: Event): Option<Ticket> {
    match e
    case LoginRequest(id, rid, _) => Some(Ticket(id, ForLogin, rid))
    case RoomListRequest(id, rid) => Some(Ticket(id, ForRoomList, rid))
    case JoinRoomRequest(id, rid, _) => Some(Ticket(id, ForJoin, rid))
    case LeaveRoomRequest(id, rid) => Some(Ticket(id, ForLeave, rid))
    case DisconnectRequest(id, rid) => Some(Ticket(id, ForDisconnect, rid))
    case _ => None
  }

  /** Room lists and disconnects are answered whether or not the session is known. */
  predicate AlwaysAnswered(e: Event) { e.RoomListRequest? || e.DisconnectRequest? }

  function TicketFor(e: Event, known: bool): seq<Ticket> {
    match RequestIn(e)
    case Some(t) => if known || AlwaysAnswered(e) then [t] else []
    case None => []
  }

  /** A disconnect request is among the payloads. */
  predicate HasLeft(decode: Decoder, id: u32, payloads: seq<Bytes>) {
    payloads != [] &&
    var last := decode(id, payloads[|payloads| - 1]);
    HasLeft(decode, id, payloads[..|payloads| - 1]) || (last.Some? && last.value.DisconnectRequest?)
  }

  /** The answers due to a client for the payloads it sent: one for each request, until it asked to disconnect. */
  function Due(decode: Decoder, id: u32, payloads: seq<Bytes>): seq<Ticket> {
    if payloads == [] then []
    else
      var init := payloads[..|payloads| - 1];
      Due(decode, id, init)
      + match decode(id, payloads[|payloads| - 1])
        case Some(e) => TicketFor(e, !HasLeft(decode, id, init))
        case None => []
  }

  lemma {:induction false} DuePrefix(decode: Decoder, id: u32, a: seq<Bytes>, b: seq<Bytes>)
    requires a <= b
    ensures Due(decode, id, a) <= Due(decode, id, b)
    decreases |b|
  {
    hide TicketFor, HasLeft;
    if |a| < |b| {
      DuePrefix(decode, id, a, b[..|b| - 1]);
    } else {
      assert a == b;
    }
  }

  lemma OnePayloadMore(decode: Decoder, id: u32, payloads: seq<Bytes>, last: Bytes)
    ensures Due(decode, id, payloads + [last])
            == Due(decode, id, payloads) + match decode(id, last)
                                           case Some(e) => TicketFor(e, !HasLeft(decode, id, payloads))
                                           case None => []
    ensures HasLeft(decode, id, payloads + [last])
            <==> HasLeft(decode, id, payloads) || (decode(id, last).Some? && decode(id, last).value.DisconnectRequest?)
  {
    hide TicketFor;
    assert (payloads + [last])[..|payloads|] == payloads;
  }

  /** The tickets of one session, in order. */
  function Mine(ts: seq<Ticket>, id: u32): seq<Ticket> {
    if ts == [] then [] else
      Mine(ts[..|ts| - 1], id) + if ts[|ts| - 1].sessionId == id then [ts[|ts| - 1]] else []
  }

  lemma OneTicketMore(ts: seq<Ticket>, more: seq<Ticket>, id: u32)
    requires |more| <= 1
    ensures Mine(ts + more, id) == Mine(ts, id) + if more != [] && more[0].sessionId == id then more else []
  {
    if more == [] {
      assert ts + more == ts && Mine(ts, id) + [] == Mine(ts, id);
    } else {
      assert (ts + more)[..|ts|] == ts && more == [more[0]];
    }
  }

  // ----- The way up -----

  lemma AskedIsTicket(r: Rooms, e: Event)
    ensures Asked(r, e) == TicketFor(e, e.sessionId in r.sessions)
    ensures |Asked(r, e)| <= 1 && forall t :: t in Asked(r, e) ==> t.sessionId == e.sessionId
  {
  }

  lemma OneRequestMore(run: seq<Entry>)
    requires run != [] && GoodOrder(RoomsAfter(run[..|run| - 1]), run[|run| - 1].event, run[|run| - 1].order)
    ensures Requests(run) == Requests(run[..|run| - 1]) + Asked(RoomsAfter(run[..|run| - 1]), run[|run| - 1].event)
  {
    hide GoodOrder, Asked, RoomsAfter;
  }

  /** One packet, as far as the requests of session `id` go. */
  lemma PacketRequests(decode: Decoder, init: seq<Packet>, p: Packet, rinit: seq<Entry>, x: Entry, id: u32)
    requires Handles(decode, init, rinit) && !LifeOf(init, id).Broken? && !LifeOf(init + [p], id).Broken?
    requires EventOf(decode, p) == Some(x.event) && GoodOrder(RoomsAfter(rinit), x.event, x.order)
    requires HasLeft(decode, id, PayloadsOf(init, id)) == AskedToLeave(rinit, id)
    ensures HasLeft(decode, id, PayloadsOf(init + [p], id)) == AskedToLeave(rinit + [x], id)
    ensures var due, due' := Due(decode, id, PayloadsOf(init, id)), Due(decode, id, PayloadsOf(init + [p], id));
            var mine, mine' := Mine(Requests(rinit), id), Mine(Requests(rinit + [x]), id);
            && (p.id != id ==> due' == due && mine' == mine)
            && (mine == due ==> mine' <= due' && (LifeOf(init, id).Gone? || mine' == due'))
  {
    hide Due, HasLeft, Mine, Requests, RoomsAfter, GoodOrder, PayloadsOf;
    var r, payloads := RoomsAfter(rinit), PayloadsOf(init, id);
    var run := rinit + [x];
    assert run[..|run| - 1] == rinit && run[|run| - 1] == x;
    TableFollowsLife(decode, init, rinit, id);
    OneEntryMore(run, id);
    OneRequestMore(run);
    AskedIsTicket(r, x.event);
    OneTicketMore(Requests(rinit), Asked(r, x.event), id);
    OnePacketMore(init, p, id);
    assert payloads + [] == payloads;
    if p.Data? && p.id == id {
      OnePayloadMore(decode, id, payloads, p.payload);
    }
    var mine := Mine(Requests(rinit), id);
    assert mine + [] == mine;
  }

  /**
   * The requests of a session that the game logic handled are those its payloads make; only a payload that arrived
   * after the Disconnect may have gone unanswered.
   */
  lemma {:induction false} RequestsOfSession(decode: Decoder, ps: seq<Packet>, run: seq<Entry>, id: u32)
    requires Handles(decode, ps, run) && !LifeOf(ps, id).Broken?
    requires LifeOf(ps, id).Gone? ==> LifeOf(ps, id).extra <= 1
    ensures HasLeft(decode, id, PayloadsOf(ps, id)) == AskedToLeave(run, id)
    ensures Mine(Requests(run), id) <= Due(decode, id, PayloadsOf(ps, id))
    ensures (LifeOf(ps, id).Gone? ==> LifeOf(ps, id).extra == 0)
            ==> Mine(Requests(run), id) == Due(decode, id, PayloadsOf(ps, id))
    decreases |ps|
  {
    hide Due, HasLeft, Mine, Requests, GoodOrder, PayloadsOf;
    Unhandle(decode, ps, run);
    if ps == [] {
      NothingYet(decode, id);
    } else {
      var init, p := ps[..|ps| - 1], ps[|ps| - 1];
      assert ps == init + [p];
      OnePacketMore(init, p, id);
      if EventOf(decode, p).None? {
        RequestsOfSession(decode, init, run, id);
        assert PayloadsOf(init, id) + [] == PayloadsOf(init, id);
        if p.Data? && p.id == id {
          OnePayloadMore(decode, id, PayloadsOf(init, id), p.payload);
          assert Due(decode, id, PayloadsOf(init, id)) + [] == Due(decode, id, PayloadsOf(init, id));
        }
      } else {
        var rinit, x := run[..|run| - 1], run[|run| - 1];
        assert run == rinit + [x];
        RequestsOfSession(decode, init, rinit, id);
        PacketRequests(decode, init, p, rinit, x, id);
      }
    }
  }

  lemma NothingYet(decode: Decoder, id: u32)
    ensures PayloadsOf([], id) == [] && Due(decode, id, []) == [] && !HasLeft(decode, id, [])
    ensures Requests([]) == [] && Mine([], id) == [] && !AskedToLeave([], id)
  {
  }

  // ----- The way down -----

  /** The responses a client finds in the payloads it polls. */
  function Tickets(read: Reading, id: u32, payloads: seq<Bytes>): seq<Ticket> {
    if payloads == [] then []
    else
      var m := read(payloads[|payloads| - 1]);
      Tickets(read, id, payloads[..|payloads| - 1])
      + match KindOf(m.payload)
        case Some(kind) => [Ticket(id, kind, m.requestId)]
        case None => []
  }

  lemma {:induction false} TicketsPrefix(read: Reading, id: u32, a: seq<Bytes>, b: seq<Bytes>)
    requires a <= b
    ensures Tickets(read, id, a) <= Tickets(read, id, b)
    decreases |b|
  {
    hide KindOf;
    if |a| < |b| {
      TicketsPrefix(read, id, a, b[..|b| - 1]);
    } else {
      assert a == b;
    }
  }

  lemma OnePolledMore(read: Reading, id: u32, payloads: seq<Bytes>, last: Bytes)
    ensures Tickets(read, id, payloads + [last])
            == Tickets(read, id, payloads) + match KindOf(read(last).payload)
                                             case Some(kind) => [Ticket(id, kind, read(last).requestId)]
                                             case None => []
  {
    hide KindOf;
    assert (payloads + [last])[..|payloads|] == payloads;
  }

  /** What one message more adds at both ends. */
  lemma OneMessageMore(encode: Encoder, s: u32, init: seq<OutgoingMessage>, last: OutgoingMessage)
    ensures For(s, Sends(encode, init + [last]))
            == For(s, Sends(encode, init)) + if last.sessionId == s then [encode(last.message)] else []
    ensures Answers(init + [last]) == Answers(init) + Answers([last])
  {
    var ops, op := Sends(encode, init), SendOp(last.sessionId, encode(last.message));
    assert (init + [last])[..|init|] == init && (ops + [op])[..|ops|] == ops;
    AnswersConcat(init, [last]);
  }

  lemma {:induction false} TicketsAreAnswers(encode: Encoder, read: Reading, s: u32, ms: seq<OutgoingMessage>)
    requires Readable(encode, read) && AllBuildable(ms)
    ensures Tickets(read, s, For(s, Sends(encode, ms))) == Mine(Answers(ms), s)
  {
    hide KindOf, Tickets, Mine, Buildable, Show, Answers, For, Sends;
    if ms == [] {
      NothingSent(encode, read, s);
    } else {
      var init, last := ms[..|ms| - 1], ms[|ms| - 1];
      assert ms == init + [last] && last in ms;
      TicketsAreAnswers(encode, read, s, init);
      OneMessageMore(encode, s, init, last);
      AnswersOne(last);
      OneTicketMore(Answers(init), Answers([last]), s);
      assert SameToClient(read(encode(last.message)), last.message);
      OnePolledMore(read, s, For(s, Sends(encode, init)), encode(last.message));
      assert For(s, Sends(encode, init)) + [] == For(s, Sends(encode, init));
      assert Mine(Answers(init), s) + [] == Mine(Answers(init), s);
    }
  }

  lemma NothingSent(encode: Encoder, read: Reading, s: u32)
    ensures For(s, Sends(encode, [])) == [] && Tickets(read, s, []) == [] && Mine(Answers([]), s) == []
  {
  }

  // ----- All the way -----

  /**
   * Request and response, end to end: once the events of all polled packets were handled and their messages sent, the
   * responses a client has polled are, in order, answers due for the payloads the game thread polled from it; and if
   * the hand-off queue lost nothing, for an initial part of the payloads it sent. When everything has arrived and the
   * session was not closed, every request was answered.
   */
  lemma ResponsesReachTheirClient(
    moves: seq<Move>, n: nat, run: seq<Entry>, size: Message -> nat, decode: Decoder, encode: Encoder, read: Reading)
    requires EncodingBounded(size) && Readable(encode, read)
    requires Played(size, decode, encode, moves) && After(moves).accepts <= ID_COUNT
    requires Handles(decode, After(moves).inbox.polled, run) && After(moves).issued == Sends(encode, Log(size, run))
    requires n < |After(moves).conns| && After(moves).conns[n].client.dropped == 0 && !After(moves).conns[n].foreign
    ensures var net, c := After(moves), After(moves).conns[n];
            var answered, got := Tickets(read, c.id, c.client.polled), PayloadsOf(net.inbox.polled, c.id);
            && answered <= Due(decode, c.id, got)
            && (Lossless(net.inbox) ==> answered <= Due(decode, c.id, c.client.issued))
            && (|c.client.polled| == |For(c.id, net.issued)| && Disconnect(c.id) !in net.inbox.polled
                ==> answered == Due(decode, c.id, got))
  {
    hide After, Log, Played, Polite, Handles, EncodingBounded, Readable, AllBuildable, Tickets, Due, Mine, Answers,
         Requests, Sends, For, ZeroUnlessAnswer;
    var net, c := After(moves), After(moves).conns[n];
    var sent, got := For(c.id, net.issued), PayloadsOf(net.inbox.polled, c.id);
    GameIsPolite(size, decode, encode, moves);
    PoliteSendsArriveInOrder(moves, n);
    TicketsPrefix(read, c.id, c.client.polled, sent);
    LogIsBuildable(size, run);
    TicketsAreAnswers(encode, read, c.id, Log(size, run));
    EveryRequestIsAnsweredOnce(size, run);
    PolledLife(moves, c.id);
    AliveMeansOpen(net.inbox.polled, c.id);
    RequestsOfSession(decode, net.inbox.polled, run, c.id);
    ServerReceivesInOrder(moves, n);
    if Lossless(net.inbox) {
      DuePrefix(decode, c.id, got, c.client.issued);
    }
    assert |c.client.polled| == |sent| ==> c.client.polled == sent;
  }
}
