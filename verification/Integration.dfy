/**
 * The chat server on top of the transport: packets polled from the hand-off queue become events, the game logic handles
 * them, and its messages are sent. Decoding and encoding are given functions.
 */
module Integration {
  import opened Bytes
  import opened PacketQueue
  import opened Network
  import opened Delivery
  import opened Lifecycle
  import opened ServerTypes
  import opened RoomSystems
  import opened Chat
  import opened ChatViews
  import opened Reconstruction
  import opened ChatResponses

  // ----- From packets to events -----

  type Decoder = (u32, Bytes) -> Option<Event>

  /** A payload becomes at most one event, of the session it came from, and never a connect or disconnect event. */
  ghost predicate GoodDecoder(decode: Decoder) {
    forall id, payload :: decode(id, payload).Some? ==>
      var e := decode(id, payload).value;
      e.sessionId == id && !e.SessionConnected? && !e.SessionDisconnected?
  }

  function EventOf(decode: Decoder, p: Packet): Option<Event> {
    match p
    case Connect(id) => Some(SessionConnected(id))
    case Disconnect(id) => Some(SessionDisconnected(id))
    case Data(id, payload) => decode(id, payload)
  }

  function EventsOf(decode: Decoder, ps: seq<Packet>): seq<Event> {
    if ps == [] then [] else
      EventsOf(decode, ps[..|ps| - 1])
      + (match EventOf(decode, ps[|ps| - 1]) case Some(e) => [e] case None => [])
  }

  function EventsIn(run: seq<Entry>): seq<Event> {
    if run == [] then [] else EventsIn(run[..|run| - 1]) + [run[|run| - 1].event]
  }

  /** Each iteration order met during the run is one the containers could have had. */
  ghost predicate Possible(run: seq<Entry>) {
    run != [] ==>
      var init, x := run[..|run| - 1], run[|run| - 1];
      Possible(init) && GoodOrder(RoomsAfter(init), x.event, x.order)
  }

  /** The run has handled exactly the events of these packets. */
  ghost predicate Handles(decode: Decoder, ps: seq<Packet>, run: seq<Entry>) {
    GoodDecoder(decode) && EventsIn(run) == EventsOf(decode, ps) && Possible(run)
  }

  /** Undoing the last packet. */
  lemma Unhandle(decode: Decoder, ps: seq<Packet>, run: seq<Entry>)
    requires Handles(decode, ps, run)
    ensures ps == [] ==> run == []
    ensures ps != [] ==>
              var init, e := ps[..|ps| - 1], EventOf(decode, ps[|ps| - 1]);
              if e.Some? then
                && run != [] && run[|run| - 1].event == e.value && Handles(decode, init, run[..|run| - 1])
                && GoodOrder(RoomsAfter(run[..|run| - 1]), e.value, run[|run| - 1].order)
              else Handles(decode, init, run)
  {
    if ps != [] {
      var e := EventOf(decode, ps[|ps| - 1]);
      if e.Some? {
        var events, before := EventsIn(run), EventsOf(decode, ps[..|ps| - 1]);
        assert events == before + [e.value];
        assert events[|events| - 1] == run[|run| - 1].event && events[..|events| - 1] == EventsIn(run[..|run| - 1]);
        assert (before + [e.value])[..|before|] == before;
      } else {
        assert EventsOf(decode, ps[..|ps| - 1]) + [] == EventsOf(decode, ps[..|ps| - 1]);
      }
    }
  }

  // ----- The session table -----

  ghost predicate AskedToLeave(run: seq<Entry>, id: u32) {
    exists i :: 0 <= i < |run| && run[i].event.DisconnectRequest? && run[i].event.sessionId == id
  }

  lemma OneEntryMore(run: seq<Entry>, id: u32)
    requires run != []
    ensures AskedToLeave(run, id) <==>
            AskedToLeave(run[..|run| - 1], id)
                || (run[|run| - 1].event.DisconnectRequest? && run[|run| - 1].event.sessionId == id)
  {
    var init := run[..|run| - 1];
    if AskedToLeave(init, id) {
      var i :| 0 <= i < |init| && init[i].event.DisconnectRequest? && init[i].event.sessionId == id;
      assert run[i] == init[i];
    }
    if AskedToLeave(run, id) {
      var i :| 0 <= i < |run| && run[i].event.DisconnectRequest? && run[i].event.sessionId == id;
      assert i < |run| - 1 ==> init[i] == run[i];
    }
  }

  /** Only connecting adds a session; only disconnecting, by packet or by request, removes it. */
  lemma TableStep(r: Rooms, e: Event, o: Order, id: u32)
    ensures id in Handle(r, e, o).rooms.sessions <==>
            if e.sessionId != id then id in r.sessions
            else e.SessionConnected? || (id in r.sessions && !e.SessionDisconnected? && !e.DisconnectRequest?)
  {
    hide LeaveNotices, MemberStates, JoinedEvents, Broadcasts, NameTaken, Listing;
  }

  /** The table in terms of the session's life in the packet stream. */
  lemma {:induction false} TableFollowsLife(decode: Decoder, ps: seq<Packet>, run: seq<Entry>, id: u32)
    requires Handles(decode, ps, run) && !LifeOf(ps, id).Broken?
    ensures id in RoomsAfter(run).sessions <==> LifeOf(ps, id).Alive? && !AskedToLeave(run, id)
    ensures LifeOf(ps, id).Unseen? ==> !AskedToLeave(run, id)
    decreases |ps|
  {
    Unhandle(decode, ps, run);
    if ps != [] {
      var init, p := ps[..|ps| - 1], ps[|ps| - 1];
      if EventOf(decode, p).None? {
        TableFollowsLife(decode, init, run, id);
      } else {
        var rinit, x := run[..|run| - 1], run[|run| - 1];
        TableFollowsLife(decode, init, rinit, id);
        OneEntryMore(run, id);
        TableStep(RoomsAfter(rinit), x.event, x.order, id);
      }
    }
  }

  /** In terms of the packets polled: Connect was polled, Disconnect was not. */
  lemma {:induction false} AliveMeansOpen(ps: seq<Packet>, id: u32)
    requires !LifeOf(ps, id).Broken?
    ensures LifeOf(ps, id).Alive? <==> Connect(id) in ps && Disconnect(id) !in ps
    ensures LifeOf(ps, id).Gone? <==> Disconnect(id) in ps
    ensures !LifeOf(ps, id).Unseen? <==> Connect(id) in ps
  {
    if ps != [] {
      var init, p := ps[..|ps| - 1], ps[|ps| - 1];
      assert ps == init + [p];
      AliveMeansOpen(init, id);
    }
  }

  lemma PolledLife(moves: seq<Move>, id: u32)
    requires After(moves).accepts <= ID_COUNT
    ensures !LifeOf(After(moves).inbox.polled, id).Broken? && !LifeOf(After(moves).inbox.Stream(), id).Broken?
    ensures var l := LifeOf(After(moves).inbox.polled, id); l.Gone? ==> l.extra <= 1
  {
    hide After, Conserved, IdsOk;
    StreamAlwaysOk(moves);
    var net := After(moves);
    var stream := net.inbox.Stream();
    if i :| 0 <= i < |net.conns| && net.conns[i].id == id {
      TracedAt(net, i);
    }
    assert stream[..|net.inbox.polled|] == net.inbox.polled;
    LifeOfPrefix(stream, |net.inbox.polled|, id);
  }

  /**
   * After the events of all polled packets were handled, the session table holds exactly the ids whose Connect was
   * polled and which had neither a polled Disconnect nor a handled disconnect request; and only those are in rooms, so
   * an id once removed never comes back. This holds whether or not packets were dropped on the way.
   */
  lemma SessionTableIsPolledStream(moves: seq<Move>, decode: Decoder, run: seq<Entry>, id: u32)
    requires After(moves).accepts <= ID_COUNT && Handles(decode, After(moves).inbox.polled, run)
    ensures var polled, r := After(moves).inbox.polled, RoomsAfter(run);
            && (id in r.sessions <==> Connect(id) in polled && Disconnect(id) !in polled && !AskedToLeave(run, id))
            && (id !in r.sessions ==> forall q :: q in r.rooms ==> id !in r.rooms[q].members)
  {
    hide After, RoomsAfter, NamesOk, FixedRooms;
    PolledLife(moves, id);
    TableFollowsLife(decode, After(moves).inbox.polled, run, id);
    AliveMeansOpen(After(moves).inbox.polled, id);
    GameAlwaysOk(run);
    assert forall q :: InRoom(RoomsAfter(run), id, q) ==> id in RoomsAfter(run).sessions;
  }

  /**
   * While nothing was dropped and nothing waits in the hand-off queue, the table is exactly the open connections that
   * did not ask to disconnect.
   */
  lemma SessionTableIsOpenConnections(moves: seq<Move>, decode: Decoder, run: seq<Entry>, id: u32)
    requires After(moves).accepts <= ID_COUNT && Handles(decode, After(moves).inbox.polled, run)
    requires Lossless(After(moves).inbox) && After(moves).inbox.queue == []
    ensures var net := After(moves);
            id in RoomsAfter(run).sessions <==>
            && (exists n :: 0 <= n < |net.conns| && net.conns[n].id == id && !net.conns[n].server.closed)
            && !AskedToLeave(run, id)
  {
    hide After, Conserved, RoomsAfter;
    var net := After(moves);
    StreamAlwaysOk(moves);
    PolledLife(moves, id);
    TableFollowsLife(decode, net.inbox.polled, run, id);
    assert net.inbox.Stream() == net.inbox.polled;
    if n :| 0 <= n < |net.conns| && net.conns[n].id == id {
      TracedAt(net, n);
      forall m | 0 <= m < |net.conns| && net.conns[m].id == id ensures m == n {
        if m != n {
          DistinctIds(net, m, n);
        }
      }
    }
  }

  // ----- The messages -----

  lemma {:induction false} FanOutRecipients(ms: seq<SessionState>, room: u32, me: SessionState, user: UserInfo,
      content: Bytes, s: u32)
    requires s != me.sessionId && forall m :: m in ms ==> m.sessionId != s
    ensures forall o ::
              || o in LeftEvents(ms, room, user)
              || o in JoinedEvents(ms, room, me)
              || o in Broadcasts(ms, room, me, content)
              ==> o.sessionId != s
  {
    if ms != [] {
      var init := ms[..|ms| - 1];
      assert ms[|ms| - 1] in ms;
      FanOutRecipients(init, room, me, user, content, s);
    }
  }

  lemma {:induction false} MembersAreSessions(r: Rooms, order: seq<u32>, exclude: Option<u32>, s: u32)
    requires Indexed(r) && s !in r.sessions
    ensures forall m :: m in MemberStates(r, order, exclude) ==> m.sessionId != s
  {
    if order != [] {
      MembersAreSessions(r, order[..|order| - 1], exclude, s);
    }
  }

  lemma LeaveRecipients(r: Rooms, id: u32, order: seq<u32>, s: u32)
    requires Indexed(r) && id in r.sessions && s !in r.sessions
    ensures forall o :: o in LeaveNotices(r, r.sessions[id], order) ==> o.sessionId != s
  {
    var me := r.sessions[id];
    var order := if me.roomId in r.rooms then order else [];
    MembersAreSessions(r, order, Some(id), s);
    FanOutRecipients(MemberStates(r, order, Some(id)), me.roomId, me, InfoOf(me), [], s);
  }

  lemma JoinRecipients(r: Rooms, id: u32, rid: u32, q: u32, o: Order, s: u32)
    requires Indexed(r) && id in r.sessions && s !in r.sessions
    ensures forall m :: m in OnJoin(r, id, rid, q, o).sent ==> m.sessionId != s
  {
    hide JoinedEvents, LeaveNotices, MemberStates, Indexed;
    LeaveRecipients(r, id, o.here, s);
    OutOfRoomKeepsIndex(r, id);
    SessionsAreNumbered(r, id);
    var out := OutOfRoom(r, id);
    MembersAreSessions(out, o.there, None, s);
    if q in r.rooms {
      var inside := InsideRoom(out, id, q);
      FanOutRecipients(MemberStates(out, o.there, None), inside.rooms[q].roomId, inside.sessions[id],
                       InfoOf(inside.sessions[id]), [], s);
    }
  }

  lemma ChatRecipients(r: Rooms, id: u32, content: Bytes, o: Order, s: u32)
    requires Indexed(r) && id in r.sessions && s !in r.sessions
    ensures forall m :: m in OnChat(r, id, content, o).sent ==> m.sessionId != s
  {
    var me := r.sessions[id];
    var here := if me.roomId in r.rooms then o.here else [];
    MembersAreSessions(r, here, None, s);
    FanOutRecipients(MemberStates(r, here, None), me.roomId, me, InfoOf(me), content, s);
  }

  /** Messages go to the session that caused them and to sessions in the table. */
  lemma Recipients(r: Rooms, e: Event, o: Order, s: u32)
    requires Indexed(r) && s !in r.sessions && s != e.sessionId
    ensures forall m :: m in Handle(r, e, o).sent ==> m.sessionId != s
  {
    hide OnJoin, OnChat, LeaveNotices, NameTaken, Listing, Indexed;
    var id := e.sessionId;
    if id in r.sessions {
      LeaveRecipients(r, id, o.here, s);
      match e {
        case JoinRoomRequest(_, rid, q) => JoinRecipients(r, id, rid, q, o, s);
        case ChatSendRequest(_, _, content) => ChatRecipients(r, id, content, o, s);
        case _ =>
      }
    } else {
      match e {
        case JoinRoomRequest(_, rid, q) => NobodyJoins(r, id, rid, q, o);
        case ChatSendRequest(_, _, content) => NobodyChats(r, id, content, o);
        case _ =>
      }
    }
  }

  lemma NobodyJoins(r: Rooms, id: u32, rid: u32, q: u32, o: Order)
    requires id !in r.sessions
    ensures OnJoin(r, id, rid, q, o).sent == []
  {
  }

  lemma NobodyChats(r: Rooms, id: u32, content: Bytes, o: Order)
    requires id !in r.sessions
    ensures OnChat(r, id, content, o).sent == []
  {
  }

  lemma {:induction false} SiftSelects(size: Message -> nat, ms: seq<OutgoingMessage>)
    ensures forall o :: o in Sift(size, ms) ==> o in ms
  {
    if ms != [] {
      SiftSelects(size, ms[..|ms| - 1]);
    }
  }

  /** No message is ever addressed to an id before its Connect was handled. */
  lemma {:induction false} StrangersGetNothing(size: Message -> nat, decode: Decoder, ps: seq<Packet>, run: seq<Entry>,
      s: u32)
    requires Handles(decode, ps, run) && LifeOf(ps, s).Unseen?
    ensures forall o :: o in Log(size, run) ==> o.sessionId != s
    decreases |ps|
  {
    hide Handle, GoodOrder, Sift;
    Unhandle(decode, ps, run);
    if ps != [] {
      var init, p := ps[..|ps| - 1], ps[|ps| - 1];
      if EventOf(decode, p).None? {
        StrangersGetNothing(size, decode, init, run, s);
      } else {
        var rinit, x := run[..|run| - 1], run[|run| - 1];
        StrangersGetNothing(size, decode, init, rinit, s);
        TableFollowsLife(decode, init, rinit, s);
        GameAlwaysOk(rinit);
        Recipients(RoomsAfter(rinit), x.event, x.order, s);
        SiftSelects(size, Handle(RoomsAfter(rinit), x.event, x.order).sent);
      }
    }
  }

  // ----- What the game thread sends -----

  type Encoder = Message -> Bytes

  type Reading = Bytes -> Message

  /** The encodings have the sizes that QueueMessage tests. */
  ghost predicate Sized(size: Message -> nat, encode: Encoder) {
    forall m :: Buildable(m) ==> |encode(m)| == size(m)
  }

  /** Two messages between which a client makes no difference: system messages are only shown. */
  ghost predicate SameToClient(a: Message, b: Message) {
    && a.requestId == b.requestId && KindOf(a.payload) == KindOf(b.payload)
    && forall v :: Show(v, a.payload) == Show(v, b.payload)
  }

  /** A client reads back every message the server can build, as far as it makes a difference. */
  ghost predicate Readable(encode: Encoder, read: Reading) {
    forall m :: Buildable(m) ==> SameToClient(read(encode(m)), m)
  }

  /** The log holds only messages the server can build. */
  lemma {:induction false} LogIsBuildable(size: Message -> nat, run: seq<Entry>)
    ensures AllBuildable(Log(size, run))
  {
    hide Handle, GoodOrder, Sift, Buildable;
    if run != [] {
      var init, x := run[..|run| - 1], run[|run| - 1];
      LogIsBuildable(size, init);
      GameAlwaysOk(init);
      SiftSelects(size, OutcomeOf(RoomsAfter(init), x).sent);
      if GoodOrder(RoomsAfter(init), x.event, x.order) {
        SentIsBuildable(RoomsAfter(init), x.event, x.order);
      }
    }
  }

  /** The calls of Flush for the given messages. */
  function Sends(encode: Encoder, ms: seq<OutgoingMessage>): seq<Op> {
    if ms == [] then [] else
      Sends(encode, ms[..|ms| - 1]) + [SendOp(ms[|ms| - 1].sessionId, encode(ms[|ms| - 1].message))]
  }

  /** A game thread that sends what the game logic queued while handling polled packets, and nothing else. */
  ghost predicate Played(size: Message -> nat, decode: Decoder, encode: Encoder, moves: seq<Move>) {
    moves != [] ==>
      var init, last := moves[..|moves| - 1], moves[|moves| - 1];
      && Played(size, decode, encode, init) && !last.GameBroadcast?
      && (last.GameSend? ==> Prompted(size, decode, encode, After(init).inbox.polled, last.id, last.payload))
  }

  ghost predicate Prompted(size: Message -> nat, decode: Decoder, encode: Encoder, polled: seq<Packet>, id: u32,
      payload: Bytes) {
    exists run, o :: Handles(decode, polled, run) && o in Log(size, run) && o.sessionId == id
        && payload == encode(o.message)
  }

  /** The game logic never answers before the first packet: its sends are to sessions whose Connect was polled. */
  lemma {:induction false} GameIsPolite(size: Message -> nat, decode: Decoder, encode: Encoder, moves: seq<Move>)
    requires Played(size, decode, encode, moves) && After(moves).accepts <= ID_COUNT
    ensures Polite(moves)
  {
    if moves != [] {
      var init, m := moves[..|moves| - 1], moves[|moves| - 1];
      if Allowed(After(init), m) {
        AcceptsGrow(After(init), m);
      }
      GameIsPolite(size, decode, encode, init);
      if m.GameSend? {
        var run, o :| Handles(decode, After(init).inbox.polled, run) && o in Log(size, run) && o.sessionId == m.id;
        PolledLife(init, m.id);
        AliveMeansOpen(After(init).inbox.polled, m.id);
        if LifeOf(After(init).inbox.polled, m.id).Unseen? {
          StrangersGetNothing(size, decode, After(init).inbox.polled, run, m.id);
        }
      }
    }
  }

  // ----- The view at the other end of the wire -----

  /** A client folding the payloads it polls. */
  function Watch(read: Reading, payloads: seq<Bytes>): ClientView {
    if payloads == [] then Nowhere
    else Show(Watch(read, payloads[..|payloads| - 1]), read(payloads[|payloads| - 1]).payload)
  }

  lemma {:induction false} WatchIsFold(encode: Encoder, read: Reading, s: u32, ms: seq<OutgoingMessage>)
    requires Readable(encode, read) && AllBuildable(ms)
    ensures Watch(read, For(s, Sends(encode, ms))) == Fold(Nowhere, s, ms)
  {
    if ms != [] {
      var init, last := ms[..|ms| - 1], ms[|ms| - 1];
      assert last in ms;
      WatchIsFold(encode, read, s, init);
      var ops, op := Sends(encode, init), SendOp(last.sessionId, encode(last.message));
      assert (ops + [op])[..|ops|] == ops;
      assert For(s, ops + [op]) == For(s, ops) + if last.sessionId == s then [encode(last.message)] else [];
      assert last.sessionId == s ==> (For(s, ops) + [encode(last.message)])[..|For(s, ops)|] == For(s, ops);
      assert For(s, ops) + [] == For(s, ops);
    }
  }

  /** Nothing was sent to a session before it was added, and it is added once: its replay is the fold of everything. */
  lemma {:induction false} ReplayFoldsEverything(size: Message -> nat, decode: Decoder, ps: seq<Packet>,
      run: seq<Entry>, s: u32)
    requires Handles(decode, ps, run) && !LifeOf(ps, s).Broken? && s in RoomsAfter(run).sessions
    ensures Replay(size, run, s) == Fold(Nowhere, s, Log(size, run))
    decreases |ps|
  {
    hide Handle, GoodOrder, Sift, LastSent;
    Unhandle(decode, ps, run);
    if ps != [] {
      var init, p := ps[..|ps| - 1], ps[|ps| - 1];
      if EventOf(decode, p).None? {
        ReplayFoldsEverything(size, decode, init, run, s);
      } else {
        var rinit := run[..|run| - 1];
        FoldConcat(Nowhere, s, Log(size, rinit), LastSent(size, run));
        if s in RoomsAfter(rinit).sessions {
          ReplayFoldsEverything(size, decode, init, rinit, s);
        } else {
          JustAdded(size, decode, ps, run, s);
        }
      }
    }
  }

  lemma {:induction false} NotForThem(v: ClientView, s: u32, ms: seq<OutgoingMessage>)
    requires forall o :: o in ms ==> o.sessionId != s
    ensures Fold(v, s, ms) == v
  {
    if ms != [] {
      NotForThem(v, s, ms[..|ms| - 1]);
    }
  }

  lemma JustAdded(size: Message -> nat, decode: Decoder, ps: seq<Packet>, run: seq<Entry>, s: u32)
    requires Handles(decode, ps, run) && !LifeOf(ps, s).Broken? && s in RoomsAfter(run).sessions
    requires ps != [] && EventOf(decode, ps[|ps| - 1]).Some? && run != [] && s !in RoomsAfter(run[..|run| - 1]).sessions
    ensures Fold(Nowhere, s, Log(size, run)) == Nowhere
  {
    hide Sift;
    Unhandle(decode, ps, run);
    var init, rinit, x := ps[..|ps| - 1], run[..|run| - 1], run[|run| - 1];
    TableStep(RoomsAfter(rinit), x.event, x.order, s);
    assert x.event == SessionConnected(s);
    StrangersGetNothing(size, decode, init, rinit, s);
    SiftSelects(size, []);
    NotForThem(Nowhere, s, Log(size, run));
  }

  /**
   * View reconstruction over the network. Once the events of all polled packets were handled and their messages sent, a
   * client that lost nothing has polled an initial part of the messages addressed to it; and when it has polled all of
   * them, folding the payloads it polled yields its room on the server and the users in that room.
   */
  lemma ClientSeesItsRoom(
    moves: seq<Move>, n: nat, run: seq<Entry>, size: Message -> nat, decode: Decoder, encode: Encoder, read: Reading)
    requires EncodingBounded(size) && Readable(encode, read)
    requires Played(size, decode, encode, moves) && After(moves).accepts <= ID_COUNT
    requires Handles(decode, After(moves).inbox.polled, run) && After(moves).issued == Sends(encode, Log(size, run))
    requires n < |After(moves).conns| && After(moves).conns[n].client.dropped == 0
    requires After(moves).conns[n].id in RoomsAfter(run).sessions
    ensures var c := After(moves).conns[n];
            var sent := For(c.id, Sends(encode, Log(size, run)));
            && c.client.polled <= sent
            && (|c.client.polled| == |sent| ==> Watch(read, c.client.polled) == Truth(RoomsAfter(run), c.id))
  {
    hide After, RoomsAfter, Log, Played, Polite, Handles, EncodingBounded, Readable, AllBuildable, Truth;
    var c := After(moves).conns[n];
    GameIsPolite(size, decode, encode, moves);
    PoliteSendsArriveInOrder(moves, n);
    PolledLife(moves, c.id);
    LogIsBuildable(size, run);
    WatchIsFold(encode, read, c.id, Log(size, run));
    ReplayFoldsEverything(size, decode, After(moves).inbox.polled, run, c.id);
    ViewIsTruth(size, run, c.id);
    var sent := For(c.id, Sends(encode, Log(size, run)));
    assert |c.client.polled| == |sent| ==> c.client.polled == sent;
  }
}
