/** Requests are answered once each and in order, and chat texts reach exactly the sender's room. */
module ChatResponses {
  import opened Bytes
  import opened ServerTypes
  import opened RoomSystems
  import opened Chat
  import opened ChatViews

  datatype Kind = ForLogin | ForRoomList | ForJoin | ForLeave | ForDisconnect

  /** A request, or the response to one: who, what kind, and the client's correlation id. */
  datatype Ticket = Ticket(sessionId: u32, kind: Kind, requestId: u32)

  function KindOf(p: Payload): Option<Kind> {
    match p
    case LoginResponse(_, _, _) => Some(ForLogin)
    case RoomListResponse(_) => Some(ForRoomList)
    case JoinRoomResponse(_, _, _) => Some(ForJoin)
    case LeaveRoomResponse(_, _) => Some(ForLeave)
    case DisconnectResponse(_, _) => Some(ForDisconnect)
    case _ => None
  }

  /** The responses among some messages, in order. */
  function Answers(ms: seq<OutgoingMessage>): seq<Ticket> {
    if ms == [] then []
    else
      var last := ms[|ms| - 1];
      Answers(ms[..|ms| - 1])
      + match KindOf(last.message.payload)
        case None => []
        case Some(kind) => [Ticket(last.sessionId, kind, last.message.requestId)]
  }

  /** The request an event makes: login, join and leave count only from sessions known when they are handled. */
  function Asked(r: Rooms, e: Event): seq<Ticket> {
    match e
    case LoginRequest(id, rid, _) => if id in r.sessions then [Ticket(id, ForLogin, rid)] else []
    case RoomListRequest(id, rid) => [Ticket(id, ForRoomList, rid)]
    case JoinRoomRequest(id, rid, _) => if id in r.sessions then [Ticket(id, ForJoin, rid)] else []
    case LeaveRoomRequest(id, rid) => if id in r.sessions then [Ticket(id, ForLeave, rid)] else []
    case DisconnectRequest(id, rid) => [Ticket(id, ForDisconnect, rid)]
    case _ => []
  }

  ghost function Requests(run: seq<Entry>): seq<Ticket> {
    if run == [] then []
    else
      var before, x := RoomsAfter(run[..|run| - 1]), run[|run| - 1];
      Requests(run[..|run| - 1]) + (if GoodOrder(before, x.event, x.order) then Asked(before, x.event) else [])
  }

  lemma {:induction false} AnswersConcat(a: seq<OutgoingMessage>, b: seq<OutgoingMessage>)
    ensures Answers(a + b) == Answers(a) + Answers(b)
  {
    hide KindOf;
    if b == [] {
      assert a + b == a;
    } else {
      AnswersConcat(a, b[..|b| - 1]);
      assert (a + b)[..|a + b| - 1] == a + b[..|b| - 1];
    }
  }

  lemma AnswersOne(o: OutgoingMessage)
    ensures Answers([o]) == match KindOf(o.message.payload)
                            case None => []
                            case Some(kind) => [Ticket(o.sessionId, kind, o.message.requestId)]
  {
    assert [o][..0] == [];
  }

  /** No responses, and the correlation id zero throughout. */
  ghost predicate Unasked(ms: seq<OutgoingMessage>) {
    forall o :: o in ms ==> KindOf(o.message.payload).None? && o.message.requestId == 0
  }

  lemma {:induction false} UnaskedHasNoAnswers(ms: seq<OutgoingMessage>)
    requires Unasked(ms)
    ensures Answers(ms) == []
  {
    if ms != [] {
      assert ms[|ms| - 1] in ms;
      UnaskedHasNoAnswers(ms[..|ms| - 1]);
    }
  }

  lemma {:induction false} FanOutIsUnasked(ms: seq<SessionState>, room: u32, me: SessionState, user: UserInfo,
      content: Bytes)
    ensures Unasked(LeftEvents(ms, room, user)) && Unasked(JoinedEvents(ms, room, me))
    ensures Unasked(Broadcasts(ms, room, me, content))
  {
    if ms != [] {
      FanOutIsUnasked(ms[..|ms| - 1], room, me, user, content);
    }
  }

  lemma LeaveNoticesAreUnasked(r: Rooms, s: SessionState, order: seq<u32>)
    ensures Unasked(LeaveNotices(r, s, order))
  {
    FanOutIsUnasked(MemberStates(r, if s.roomId in r.rooms then order else [], Some(s.sessionId)), s.roomId, s,
        InfoOf(s), []);
  }

  /** Messages that are responses carry their request's id, all others carry zero. */
  ghost predicate ZeroUnlessAnswer(ms: seq<OutgoingMessage>) {
    forall o :: o in ms && KindOf(o.message.payload).None? ==> o.message.requestId == 0
  }

  /** Answers around a response in the middle of unasked messages. */
  lemma AnswersAround(a: seq<OutgoingMessage>, o: OutgoingMessage, b: seq<OutgoingMessage>)
    requires Unasked(a) && Unasked(b) && KindOf(o.message.payload).Some?
    ensures Answers(a + [o] + b) == [Ticket(o.sessionId, KindOf(o.message.payload).value, o.message.requestId)]
    ensures ZeroUnlessAnswer(a + [o] + b)
  {
    UnaskedHasNoAnswers(a);
    UnaskedHasNoAnswers(b);
    AnswersOne(o);
    AnswersConcat(a, [o]);
    AnswersConcat(a + [o], b);
  }

  lemma JoinAnswers(r: Rooms, id: u32, rid: u32, q: u32, o: Order)
    requires id in r.sessions && r.sessions[id].loggedIn && q in r.rooms && r.sessions[id].roomId != q
    ensures Answers(OnJoin(r, id, rid, q, o).sent) == [Ticket(id, ForJoin, rid)]
    ensures ZeroUnlessAnswer(OnJoin(r, id, rid, q, o).sent)
  {
    hide OnJoin, LeaveNotices, Answers;
    JoinSends(r, id, rid, q, o);
    var room := InsideRoom(OutOfRoom(r, id), id, q).rooms[q];
    var leaving := LeaveNotices(r, r.sessions[id], o.here);
    LeaveNoticesAreUnasked(r, r.sessions[id], o.here);
    var answer := To(id, rid, JoinRoomResponse(true, NoError, Some(RoomInfoOf(room))));
    var notice := To(id, 0, SystemMessage(room.roomId, Entered(CStr(room.roomName))));
    var ms, me := MemberStates(OutOfRoom(r, id), o.there, None), r.sessions[id].(roomId := q);
    FanOutIsUnasked(ms, room.roomId, me, InfoOf(me), []);
    var introduced := JoinedEvents(ms, room.roomId, me);
    AnswersAround(leaving, answer, [notice] + introduced);
    assert leaving + [answer, notice] + introduced == leaving + [answer] + ([notice] + introduced);
  }

  lemma LeaveAnswers(r: Rooms, id: u32, rid: u32, o: Order)
    requires id in r.sessions && r.sessions[id].roomId != NO_ROOM_ID
    ensures Answers(OnLeave(r, id, rid, o).sent) == [Ticket(id, ForLeave, rid)]
    ensures ZeroUnlessAnswer(OnLeave(r, id, rid, o).sent)
  {
    hide LeaveNotices, Answers;
    var leaving := LeaveNotices(r, r.sessions[id], o.here);
    LeaveNoticesAreUnasked(r, r.sessions[id], o.here);
    var answer := To(id, rid, LeaveRoomResponse(true, NoError));
    var notice := To(id, 0, SystemMessage(r.sessions[id].roomId, Departed));
    AnswersAround(leaving, answer, [notice]);
    assert leaving + [answer, notice] == leaving + [answer] + [notice];
  }

  lemma ChatAnswers(r: Rooms, id: u32, content: Bytes, o: Order)
    ensures Unasked(OnChat(r, id, content, o).sent)
  {
    if id in r.sessions {
      var s := r.sessions[id];
      FanOutIsUnasked(MemberStates(r, if s.roomId in r.rooms then o.here else [], None), s.roomId, s, InfoOf(s),
          content);
    }
  }

  lemma StepAnswers(r: Rooms, e: Event, o: Order)
    ensures Answers(Handle(r, e, o).sent) == Asked(r, e)
    ensures ZeroUnlessAnswer(Handle(r, e, o).sent)
  {
    hide LeaveNotices, OnChat, Answers;
    var sent := Handle(r, e, o).sent;
    match e {
      case SessionConnected(_) => UnaskedHasNoAnswers(sent);
      case SessionDisconnected(id) =>
        if id in r.sessions {
          LeaveNoticesAreUnasked(r, r.sessions[id], o.here);
        }
        UnaskedHasNoAnswers(sent);
      case InvalidPacket(_, _) => UnaskedHasNoAnswers(sent);
      case ChatSendRequest(id, _, content) =>
        ChatAnswers(r, id, content, o);
        UnaskedHasNoAnswers(sent);
      case JoinRoomRequest(id, rid, q) =>
        if id in r.sessions && r.sessions[id].loggedIn && q in r.rooms && r.sessions[id].roomId != q {
          JoinAnswers(r, id, rid, q, o);
        } else {
          SingleAnswer(sent);
        }
      case LeaveRoomRequest(id, rid) =>
        if id in r.sessions && r.sessions[id].roomId != NO_ROOM_ID {
          LeaveAnswers(r, id, rid, o);
        } else {
          SingleAnswer(sent);
        }
      case DisconnectRequest(id, rid) =>
        var answer := To(id, rid, DisconnectResponse(true, NoError));
        if id in r.sessions {
          LeaveNoticesAreUnasked(r, r.sessions[id], o.here);
          AnswersAround([], answer, LeaveNotices(r, r.sessions[id], o.here));
        } else {
          AnswersAround([], answer, []);
        }
        assert [] + [answer] == [answer];
      case _ => SingleAnswer(sent);
    }
  }

  lemma SingleAnswer(ms: seq<OutgoingMessage>)
    requires |ms| <= 1
    ensures ms == [] ==> Answers(ms) == []
    ensures ms != [] ==> Answers(ms) == match KindOf(ms[0].message.payload)
                                        case None => []
                                        case Some(kind) => [Ticket(ms[0].sessionId, kind, ms[0].message.requestId)]
  {
    if ms != [] {
      AnswersOne(ms[0]);
      assert ms == [ms[0]];
    }
  }

  lemma NoticesAnswerNothing(o: OutgoingMessage)
    requires o.message.payload.SystemMessage?
    ensures Answers([o]) == []
  {
    AnswersOne(o);
  }

  lemma OneSifted(size: Message -> nat, ms: seq<OutgoingMessage>)
    ensures Sift(size, []) == []
    ensures ms != [] ==>
              var last := ms[|ms| - 1];
              Sift(size, ms) == Sift(size, ms[..|ms| - 1]) + if Fits(size, last.message) then [last] else []
  {
    hide Fits;
  }

  lemma {:induction false} SiftKeepsAnswers(size: Message -> nat, ms: seq<OutgoingMessage>)
    requires FitsUnlessNotice(size, ms)
    ensures Answers(Sift(size, ms)) == Answers(ms)
    ensures forall o :: o in Sift(size, ms) ==> o in ms
  {
    hide Answers, KindOf, Fits, Sift;
    OneSifted(size, ms);
    if ms != [] {
      var init, last := ms[..|ms| - 1], ms[|ms| - 1];
      SiftKeepsAnswers(size, init);
      assert ms == init + [last];
      AnswersConcat(init, [last]);
      if Fits(size, last.message) {
        AnswersConcat(Sift(size, init), [last]);
      } else {
        NoticesAnswerNothing(last);
        assert Answers(init) + [] == Answers(init) && Sift(size, init) + [] == Sift(size, init);
      }
    }
  }

  lemma LastAnswers(size: Message -> nat, run: seq<Entry>)
    requires run != [] && EncodingBounded(size)
    ensures var before, x := RoomsAfter(run[..|run| - 1]), run[|run| - 1];
            Answers(LastSent(size, run)) == if GoodOrder(before, x.event, x.order) then Asked(before, x.event) else []
    ensures ZeroUnlessAnswer(LastSent(size, run))
  {
    hide Handle, GoodOrder, GameOk;
    var before, x := RoomsAfter(run[..|run| - 1]), run[|run| - 1];
    GameAlwaysOk(run[..|run| - 1]);
    if GoodOrder(before, x.event, x.order) {
      SentFits(size, before, x.event, x.order);
      SiftKeepsAnswers(size, Handle(before, x.event, x.order).sent);
      StepAnswers(before, x.event, x.order);
    }
  }

  /**
   * Request/response conservation: over any run, the responses in the log are the requests handled, one for one, in
   * order, to the asking session, of the matching kind and with its request id; everything else carries id zero.
   */
  lemma {:induction false} EveryRequestIsAnsweredOnce(size: Message -> nat, run: seq<Entry>)
    requires EncodingBounded(size)
    ensures Answers(Log(size, run)) == Requests(run)
    ensures ZeroUnlessAnswer(Log(size, run))
  {
    if run != [] {
      var init := run[..|run| - 1];
      EveryRequestIsAnsweredOnce(size, init);
      LastAnswers(size, run);
      AnswersConcat(Log(size, init), LastSent(size, run));
    }
  }

  // ----- Chat -----

  function Recipients(ms: seq<OutgoingMessage>): seq<u32> {
    if ms == [] then [] else Recipients(ms[..|ms| - 1]) + [ms[|ms| - 1].sessionId]
  }

  /** A fan-out over the members of a room goes to each of them, in iteration order. */
  lemma {:induction false} BroadcastsReachMembers(r: Rooms, order: seq<u32>, room: u32, sender: SessionState,
      content: Bytes)
    requires forall id :: id in order ==> id in r.sessions && r.sessions[id].sessionId == id
    ensures var sent := Broadcasts(MemberStates(r, order, None), room, sender, content);
            && Recipients(sent) == order
            && forall o :: o in sent ==>
                 o.message == Message(0, ChatBroadcast(room, sender.userId, CStr(sender.displayName), CStr(content)))
  {
    if order != [] {
      var init, id := order[..|order| - 1], order[|order| - 1];
      assert id in order;
      BroadcastsReachMembers(r, init, room, sender, content);
      var ms := MemberStates(r, init, None);
      assert MemberStates(r, order, None)[..|ms|] == ms;
      var sent := Broadcasts(ms, room, sender, content);
      assert Broadcasts(MemberStates(r, order, None), room, sender, content)[..|sent|] == sent;
    }
  }

  lemma {:induction false} SiftAll(size: Message -> nat, ms: seq<OutgoingMessage>)
    requires forall o :: o in ms ==> Fits(size, o.message)
    ensures Sift(size, ms) == ms
  {
    if ms != [] {
      assert ms[|ms| - 1] in ms;
      SiftAll(size, ms[..|ms| - 1]);
    }
  }

  /** A chat request is accepted from a logged-in session in a room, with a text of 1 to 512 bytes. */
  predicate Accepted(r: Rooms, e: Event) {
    && e.ChatSendRequest? && e.sessionId in r.sessions && r.sessions[e.sessionId].loggedIn
    && r.sessions[e.sessionId].roomId != NO_ROOM_ID && 1 <= |e.content| <= MAX_CHAT_MESSAGE_BYTES
  }

  /** One broadcast for each session in the sender's room, the sender included, with the sender's id, name and text. */
  ghost predicate ReachesExactlyTheRoom(r: Rooms, me: SessionState, content: Bytes, sent: seq<OutgoingMessage>) {
    && me.roomId in r.rooms
    && Enumerates(Recipients(sent), r.rooms[me.roomId].members)
    && forall o :: o in sent ==>
         o.message == Message(0, ChatBroadcast(me.roomId, me.userId, CStr(me.displayName), CStr(content)))
  }

  lemma ChatFanOut(r: Rooms, id: u32, content: Bytes, o: Order)
    requires Indexed(r) && id in r.sessions && Enumerates(o.here, MembersOf(r, r.sessions[id].roomId))
    requires r.sessions[id].loggedIn && r.sessions[id].roomId != NO_ROOM_ID && 1 <= |content| <= MAX_CHAT_MESSAGE_BYTES
    ensures ReachesExactlyTheRoom(r, r.sessions[id], content, OnChat(r, id, content, o).sent)
  {
    var me := r.sessions[id];
    forall s | s in o.here ensures s in r.sessions && r.sessions[s].sessionId == s {
      assert InRoom(r, s, me.roomId);
    }
    BroadcastsReachMembers(r, o.here, me.roomId, me, content);
  }

  /**
   * Completeness: at the end of any run, an accepted chat request produces exactly one broadcast for each session in
   * the sender's room; any other chat request produces none.
   */
  lemma ChatReachesTheRoom(size: Message -> nat, run: seq<Entry>)
    requires run != [] && EncodingBounded(size) && run[|run| - 1].event.ChatSendRequest?
    requires GoodOrder(RoomsAfter(run[..|run| - 1]), run[|run| - 1].event, run[|run| - 1].order)
    ensures var r, e, sent := RoomsAfter(run[..|run| - 1]), run[|run| - 1].event, LastSent(size, run);
            if Accepted(r, e) then ReachesExactlyTheRoom(r, r.sessions[e.sessionId], e.content, sent)
            else forall o :: o in sent ==> !o.message.payload.ChatBroadcast?
  {
    hide NamesOk, FixedRooms, Indexed, EncodingBounded, Enumerates, ReachesExactlyTheRoom;
    var r, x := RoomsAfter(run[..|run| - 1]), run[|run| - 1];
    GameAlwaysOk(run[..|run| - 1]);
    var sent := Handle(r, x.event, x.order).sent;
    SentFits(size, r, x.event, x.order);
    if Accepted(r, x.event) {
      ChatFanOut(r, x.event.sessionId, x.event.content, x.order);
      ExactMeansBroadcast(r, r.sessions[x.event.sessionId], x.event.content, sent);
      SiftAll(size, sent);
    } else {
      SiftKeepsAnswers(size, sent);
    }
  }

  lemma ExactMeansBroadcast(r: Rooms, me: SessionState, content: Bytes, sent: seq<OutgoingMessage>)
    requires ReachesExactlyTheRoom(r, me, content, sent)
    ensures forall o :: o in sent ==> o.message.payload.ChatBroadcast?
  {
  }

  // ----- What a response tells -----

  /** A response says what happened to the tables: a success names the new state, a failure means nothing changed. */
  ghost predicate Truthful(before: Rooms, after: Rooms, e: Event, p: Payload) {
    var id := e.sessionId;
    match p
    case LoginResponse(success, error, account) =>
      && e.LoginRequest? && success
          == (1 <= |e.displayName| <= MAX_DISPLAY_NAME_BYTES && !NameTaken(before, e.displayName, id))
      && (success ==> && error == NoError && id in after.sessions && account == Some(InfoOf(after.sessions[id]))
                      && after.sessions[id].loggedIn && after.sessions[id].displayName == e.displayName)
      && (!success ==> && after == before && account == None
                       && (error == DuplicateName <==> 1 <= |e.displayName| <= MAX_DISPLAY_NAME_BYTES)
                       && error in {InvalidName, DuplicateName})
    case JoinRoomResponse(success, error, room) =>
      && e.JoinRoomRequest? && id in before.sessions
      && (success ==> && error == NoError && InRoom(after, id, e.roomId) && !InRoom(before, id, e.roomId)
                      && e.roomId in after.rooms && room == Some(RoomInfoOf(after.rooms[e.roomId])))
      && (!success ==> && after == before && room == None
                       && (error == InvalidName <==> !before.sessions[id].loggedIn)
                       && (error == RoomNotFound ==> e.roomId !in before.rooms)
                       && (error == AlreadyInRoom ==> InRoom(before, id, e.roomId))
                       && error in {InvalidName, RoomNotFound, AlreadyInRoom})
    case LeaveRoomResponse(success, error) =>
      && e.LeaveRoomRequest? && id in before.sessions && success == (before.sessions[id].roomId != NO_ROOM_ID)
      && (success ==> error == NoError && InRoom(after, id, NO_ROOM_ID))
      && (!success ==> after == before && error == NotInRoom)
    case DisconnectResponse(success, error) =>
      e.DisconnectRequest? && success && error == NoError && id !in after.sessions
    case RoomListResponse(rooms) =>
      && e.RoomListRequest? && after == before && |rooms| == |before.rooms|
      && forall q :: q in before.rooms ==> RoomInfoOf(before.rooms[q]) in rooms
    case _ => true
  }

  lemma {:induction false} ListingHasAll(r: Rooms, order: seq<u32>)
    requires forall q :: q in order ==> q in r.rooms
    ensures |Listing(r, order)| == |order| && forall q :: q in order ==> RoomInfoOf(r.rooms[q]) in Listing(r, order)
  {
    if order != [] {
      var init, q := order[..|order| - 1], order[|order| - 1];
      assert order == init + [q];
      ListingHasAll(r, init);
    }
  }

  /** Only responses are of interest here. */
  lemma UnaskedIsTruthful(before: Rooms, after: Rooms, e: Event, ms: seq<OutgoingMessage>)
    requires Unasked(ms)
    ensures forall m :: m in ms ==> Truthful(before, after, e, m.message.payload)
  {
  }

  lemma LeaveIsTruthful(r: Rooms, id: u32, rid: u32, o: Order)
    ensures forall m :: m in OnLeave(r, id, rid, o).sent ==>
              Truthful(r, OnLeave(r, id, rid, o).rooms, LeaveRoomRequest(id, rid), m.message.payload)
  {
    hide LeaveNotices, Unasked, RoomInfoOf;
    if id in r.sessions && r.sessions[id].roomId != NO_ROOM_ID {
      LeaveNoticesAreUnasked(r, r.sessions[id], o.here);
      UnaskedIsTruthful(r, OutOfRoom(r, id), LeaveRoomRequest(id, rid), LeaveNotices(r, r.sessions[id], o.here));
    }
  }

  lemma DisconnectIsTruthful(r: Rooms, id: u32, rid: u32, o: Order)
    ensures forall m :: m in OnDisconnectRequest(r, id, rid, o).sent ==>
              Truthful(r, OnDisconnectRequest(r, id, rid, o).rooms, DisconnectRequest(id, rid), m.message.payload)
  {
    hide LeaveNotices, Unasked, RoomInfoOf;
    if id in r.sessions {
      LeaveNoticesAreUnasked(r, r.sessions[id], o.here);
      UnaskedIsTruthful(r, WithoutSession(r, id), DisconnectRequest(id, rid), LeaveNotices(r, r.sessions[id], o.here));
    }
  }

  lemma JoinIsTruthful(r: Rooms, id: u32, rid: u32, q: u32, o: Order)
    requires Indexed(r)
    ensures forall m :: m in OnJoin(r, id, rid, q, o).sent ==>
              Truthful(r, OnJoin(r, id, rid, q, o).rooms, JoinRoomRequest(id, rid, q), m.message.payload)
  {
    hide LeaveNotices, JoinedEvents, MemberStates, Unasked, RoomInfoOf;
    if id in r.sessions && r.sessions[id].loggedIn && q in r.rooms && r.sessions[id].roomId != q {
      var out := OutOfRoom(r, id);
      var inside := InsideRoom(out, id, q);
      LeaveNoticesAreUnasked(r, r.sessions[id], o.here);
      UnaskedIsTruthful(r, inside, JoinRoomRequest(id, rid, q), LeaveNotices(r, r.sessions[id], o.here));
      FanOutIsUnasked(MemberStates(out, o.there, None), inside.rooms[q].roomId, inside.sessions[id],
          InfoOf(inside.sessions[id]), []);
      UnaskedIsTruthful(r, inside, JoinRoomRequest(id, rid, q),
                        JoinedEvents(MemberStates(out, o.there, None), inside.rooms[q].roomId, inside.sessions[id]));
    }
  }

  /** Every response of every handler tells the truth about the tables before and after it. */
  lemma ResponsesTellTheTruth(r: Rooms, e: Event, o: Order)
    requires Indexed(r) && GoodOrder(r, e, o)
    ensures forall m :: m in Handle(r, e, o).sent ==> Truthful(r, Handle(r, e, o).rooms, e, m.message.payload)
  {
    hide OnJoin, OnLeave, OnDisconnectRequest, LeaveNotices, Unasked, Listing;
    match e {
      case SessionDisconnected(id) =>
        if id in r.sessions {
          LeaveNoticesAreUnasked(r, r.sessions[id], o.here);
          UnaskedIsTruthful(r, WithoutSession(r, id), e, LeaveNotices(r, r.sessions[id], o.here));
        }
      case RoomListRequest(id, rid) =>
        ListingHasAll(r, o.rooms);
        EnumerationLength(o.rooms, r.rooms.Keys);
      case JoinRoomRequest(id, rid, q) => JoinIsTruthful(r, id, rid, q, o);
      case ChatSendRequest(id, _, content) =>
        ChatAnswers(r, id, content, o);
        UnaskedIsTruthful(r, r, e, OnChat(r, id, content, o).sent);
        ChatKeepsRooms(r, id, content, o);
      case LeaveRoomRequest(id, rid) => LeaveIsTruthful(r, id, rid, o);
      case DisconnectRequest(id, rid) => DisconnectIsTruthful(r, id, rid, o);
      case _ =>
    }
  }

  // ----- Names on the wire -----

  /** As long as stored names have no NUL byte, the names clients see are distinct too. */
  lemma NulFreeNamesStayDistinct(run: seq<Entry>, a: u32, b: u32)
    requires var r := RoomsAfter(run);
             && a in r.sessions && b in r.sessions && a != b && r.sessions[a].loggedIn && r.sessions[b].loggedIn
             && 0 !in r.sessions[a].displayName && 0 !in r.sessions[b].displayName
    ensures InfoOf(RoomsAfter(run).sessions[a]).displayName != InfoOf(RoomsAfter(run).sessions[b]).displayName
  {
    GameAlwaysOk(run);
    CStrKeepsNulFree(RoomsAfter(run).sessions[a].displayName);
    CStrKeepsNulFree(RoomsAfter(run).sessions[b].displayName);
  }

  /** Where a string ends on the wire. */
  predicate CutAt(s: Bytes, k: nat) {
    k <= |s| && 0 !in s[..k] && (k == |s| || s[k] == 0)
  }

  lemma {:induction false} CStrIsCut(s: Bytes)
    ensures CStr(s) <= s && CutAt(s, |CStr(s)|)
    ensures forall k: nat :: CutAt(s, k) ==> k == |CStr(s)|
  {
    assert forall k: nat :: 0 < k <= |s| ==> s[..k][0] == s[0];
    if s != [] && s[0] != 0 {
      CStrIsCut(s[1..]);
      var n := |CStr(s[1..])|;
      assert s[..n + 1] == [s[0]] + s[1..][..n];
      forall k: nat | CutAt(s, k) ensures k == |CStr(s)| {
        assert k > 0 && s[..k] == [s[0]] + s[1..][..k - 1];
        assert 0 !in s[1..][..k - 1];
        assert CutAt(s[1..], k - 1);
      }
    }
  }

  /**
   * In every run, two logged-in sessions look alike to clients exactly when their stored names, which differ, agree up
   * to the first NUL byte of each; so one of them has such a byte.
   */
  lemma LookAlikesExactly(run: seq<Entry>, a: u32, b: u32)
    requires var r := RoomsAfter(run);
             a in r.sessions && b in r.sessions && a != b && r.sessions[a].loggedIn && r.sessions[b].loggedIn
    ensures var x, y := RoomsAfter(run).sessions[a], RoomsAfter(run).sessions[b];
            && x.displayName != y.displayName
            && (InfoOf(x).displayName == InfoOf(y).displayName <==>
                exists k: nat ::
                  CutAt(x.displayName, k) && CutAt(y.displayName, k) && x.displayName[..k] == y.displayName[..k])
            && (InfoOf(x).displayName == InfoOf(y).displayName ==> 0 in x.displayName || 0 in y.displayName)
  {
    hide RoomsAfter, CStr, CutAt;
    GameAlwaysOk(run);
    var x, y := RoomsAfter(run).sessions[a].displayName, RoomsAfter(run).sessions[b].displayName;
    CStrIsCut(x);
    CStrIsCut(y);
    assert x[..|CStr(x)|] == CStr(x) && y[..|CStr(y)|] == CStr(y);
    if 0 !in x && 0 !in y {
      CStrKeepsNulFree(x);
      CStrKeepsNulFree(y);
    }
  }

  /**
   * Distinct stored names can look alike to clients: two sessions may log in under any two different names of legal
   * length, and the names sent out for them coincide exactly when both stop at the same place with the same bytes.
   */
  lemma WireNamesCollideExactly(a: Bytes, b: Bytes, x: u32, y: u32)
    requires a != b && 1 <= |a| <= MAX_DISPLAY_NAME_BYTES && 1 <= |b| <= MAX_DISPLAY_NAME_BYTES && x != y
    ensures var r := OnLogin(OnLogin(WithSession(WithSession(InitialRooms, x), y), x, 0, a).rooms, y, 0, b).rooms;
            && x in r.sessions && r.sessions[x].loggedIn && r.sessions[x].displayName == a
            && y in r.sessions && r.sessions[y].loggedIn && r.sessions[y].displayName == b
            && (InfoOf(r.sessions[x]).displayName == InfoOf(r.sessions[y]).displayName
                <==> exists k: nat :: CutAt(a, k) && CutAt(b, k) && a[..k] == b[..k])
  {
    hide OnLogin, WithSession, CStr, CutAt;
    CStrIsCut(a);
    CStrIsCut(b);
    assert a[..|CStr(a)|] == CStr(a) && b[..|CStr(b)|] == CStr(b);
    BothLogIn(a, b, x, y);
  }

  lemma BothLogIn(a: Bytes, b: Bytes, x: u32, y: u32)
    requires a != b && 1 <= |a| <= MAX_DISPLAY_NAME_BYTES && 1 <= |b| <= MAX_DISPLAY_NAME_BYTES && x != y
    ensures var r := OnLogin(OnLogin(WithSession(WithSession(InitialRooms, x), y), x, 0, a).rooms, y, 0, b).rooms;
            && x in r.sessions && r.sessions[x].loggedIn && r.sessions[x].displayName == a
            && y in r.sessions && r.sessions[y].loggedIn && r.sessions[y].displayName == b
  {
  }
}
