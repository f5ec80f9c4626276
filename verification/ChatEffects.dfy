/** What events do and messages show, said of the tables themselves. */
module ChatEffects {
  import opened Bytes
  import opened ServerTypes
  import opened RoomSystems
  import opened Chat
  import opened ChatViews
  import opened ChatResponses
  import opened Integration

  // ----- Disconnects asked for -----

  /** The sessions whose disconnect requests are among the events, in order, known or not. */
  function Leavers(events: seq<Event>): seq<u32> {
    if events == [] then []
    else
      var last := events[|events| - 1];
      Leavers(events[..|events| - 1]) + if last.DisconnectRequest? then [last.sessionId] else []
  }

  lemma CutExactly(r: Rooms, e: Event, o: Order)
    ensures Handle(r, e, o).cut == if e.DisconnectRequest? then [e.sessionId] else []
  {
    hide LeaveNotices, MemberStates, JoinedEvents, Broadcasts, NameTaken, Listing;
  }

  /**
   * Over all runs, the sessions to be disconnected are those that asked for it, once for each request, and no others.
   */
  lemma {:induction false} CutsAreLeavers(run: seq<Entry>)
    requires Possible(run)
    ensures Cuts(run) == Leavers(EventsIn(run))
  {
    hide Handle, GoodOrder, RoomsAfter;
    if run != [] {
      var init, x := run[..|run| - 1], run[|run| - 1];
      CutsAreLeavers(init);
      CutExactly(RoomsAfter(init), x.event, x.order);
      assert EventsIn(run)[..|EventsIn(run)| - 1] == EventsIn(init);
    }
  }

  // ----- Room infos -----

  function NameOfRoom(q: u32): Bytes {
    if q == 1001 then [0x4C, 0x6F, 0x62, 0x62, 0x79]   // Lobby
    else if q == 1002 then [0x44, 0x65, 0x76]          // Dev
    else [0x43, 0x68, 0x61, 0x74]                      // Chat
  }

  ghost function UsersIn(r: Rooms, q: u32): set<u32> {
    set id | id in r.sessions && r.sessions[id].roomId == q
  }

  /** An info shows a room as it is: its id, its name, and how many sessions are in it, as a 32-bit number. */
  ghost predicate Shows(info: RoomInfo, r: Rooms, q: u32) {
    info.roomId == q && info.roomName == NameOfRoom(q) && info.userCount == |UsersIn(r, q)| % 0x1_0000_0000
  }

  lemma InfoShows(r: Rooms, q: u32)
    requires Indexed(r) && FixedRooms(r) && q in r.rooms
    ensures Shows(RoomInfoOf(r.rooms[q]), r, q)
  {
    assert r.rooms[q].members == UsersIn(r, q) by {
      assert forall id :: id in r.rooms[q].members <==> InRoom(r, id, q);
    }
    CStrKeepsNulFree(r.rooms[q].roomName);
  }

  /** The infos of the listed rooms, in order. */
  lemma {:induction false} ListingShows(r: Rooms, order: seq<u32>)
    requires Indexed(r) && FixedRooms(r) && forall q :: q in order ==> q in r.rooms
    ensures |Listing(r, order)| == |order|
    ensures forall i :: 0 <= i < |order| ==> Shows(Listing(r, order)[i], r, order[i])
  {
    hide Indexed, FixedRooms, Shows, RoomInfoOf;
    if order != [] {
      var init, q := order[..|order| - 1], order[|order| - 1];
      ListingShows(r, init);
      InfoShows(r, q);
    }
  }

  ghost predicate ShowsRoom(infos: seq<RoomInfo>, r: Rooms, q: u32) {
    exists i :: 0 <= i < |infos| && Shows(infos[i], r, q)
  }

  /** A room list: each of the three rooms exactly once, as it is. */
  ghost predicate ShowsAllRooms(infos: seq<RoomInfo>, r: Rooms) {
    && |infos| == 3
    && ShowsRoom(infos, r, 1001) && ShowsRoom(infos, r, 1002) && ShowsRoom(infos, r, 1003)
    && (forall i, j :: 0 <= i < j < 3 ==> infos[i].roomId != infos[j].roomId)
  }

  /** A room list request is answered with every room as it is, users counted. */
  lemma RoomListShowsAllRooms(run: seq<Entry>)
    requires run != [] && Possible(run) && run[|run| - 1].event.RoomListRequest?
    ensures var r, e := RoomsAfter(run[..|run| - 1]), run[|run| - 1].event;
            var sent := OutcomeOf(r, run[|run| - 1]).sent;
            && |sent| == 1 && sent[0].sessionId == e.sessionId && sent[0].message.requestId == e.requestId
            && sent[0].message.payload.RoomListResponse? && ShowsAllRooms(sent[0].message.payload.rooms, r)
  {
    hide RoomsAfter;
    var r, x := RoomsAfter(run[..|run| - 1]), run[|run| - 1];
    GameAlwaysOk(run[..|run| - 1]);
    ListShowsAll(r, x.order.rooms);
  }

  lemma ListShowsAll(r: Rooms, order: seq<u32>)
    requires Indexed(r) && FixedRooms(r) && Enumerates(order, r.rooms.Keys)
    ensures ShowsAllRooms(Listing(r, order), r)
  {
    hide Indexed, Listing;
    ListingShows(r, order);
    EnumerationLength(order, r.rooms.Keys);
    assert r.rooms.Keys == {1001, 1002, 1003};
    ListShowsOne(r, order, 1001);
    ListShowsOne(r, order, 1002);
    ListShowsOne(r, order, 1003);
  }

  lemma ListShowsOne(r: Rooms, order: seq<u32>, q: u32)
    requires |Listing(r, order)| == |order| && q in order
    requires forall i :: 0 <= i < |order| ==> Shows(Listing(r, order)[i], r, order[i])
    ensures ShowsRoom(Listing(r, order), r, q)
  {
    hide Listing, Shows;
    var i :| 0 <= i < |order| && order[i] == q;
    assert Shows(Listing(r, order)[i], r, q);
  }

  lemma {:induction false} AnswerIsTicket(ms: seq<OutgoingMessage>, m: OutgoingMessage)
    requires m in ms && KindOf(m.message.payload).Some?
    ensures Ticket(m.sessionId, KindOf(m.message.payload).value, m.message.requestId) in Answers(ms)
  {
    hide KindOf;
    if m != ms[|ms| - 1] {
      AnswerIsTicket(ms[..|ms| - 1], m);
    }
  }

  lemma JoinAnswerShowsRoom(r: Rooms, e: Event, o: Order, m: OutgoingMessage)
    requires Indexed(r) && FixedRooms(r) && GoodOrder(r, e, o) && e.JoinRoomRequest? && m in Handle(r, e, o).sent
    requires m.message.payload.JoinRoomResponse? && m.message.payload.success
    ensures var after := Handle(r, e, o).rooms;
            && m.sessionId == e.sessionId && m.message.requestId == e.requestId
            && m.message.payload.room.Some? && Shows(m.message.payload.room.value, after, e.roomId)
            && e.sessionId in UsersIn(after, e.roomId)
  {
    hide Handle, GoodOrder, Shows, RoomInfoOf, Indexed, FixedRooms, Answers;
    TablesKept(r, e, o);
    ResponsesTellTheTruth(r, e, o);
    StepAnswers(r, e, o);
    AnswerIsTicket(Handle(r, e, o).sent, m);
    assert Truthful(r, Handle(r, e, o).rooms, e, m.message.payload);
    InfoShows(Handle(r, e, o).rooms, e.roomId);
  }

  /** A successful join is answered with the room as it is then, the newcomer counted. */
  lemma JoinShowsRoom(run: seq<Entry>, m: OutgoingMessage)
    requires run != [] && Possible(run) && run[|run| - 1].event.JoinRoomRequest?
    requires m in OutcomeOf(RoomsAfter(run[..|run| - 1]), run[|run| - 1]).sent
    requires m.message.payload.JoinRoomResponse? && m.message.payload.success
    ensures var e, after := run[|run| - 1].event, RoomsAfter(run);
            && m.sessionId == e.sessionId && m.message.requestId == e.requestId
            && m.message.payload.room.Some? && Shows(m.message.payload.room.value, after, e.roomId)
            && e.sessionId in UsersIn(after, e.roomId)
  {
    hide Handle, GoodOrder, Shows, Indexed, FixedRooms, NamesOk, UsersIn;
    GameAlwaysOk(run[..|run| - 1]);
    JoinAnswerShowsRoom(RoomsAfter(run[..|run| - 1]), run[|run| - 1].event, run[|run| - 1].order, m);
  }

  // ----- Notices -----

  /** The system messages among some messages, in order. */
  function NoticesIn(ms: seq<OutgoingMessage>): seq<OutgoingMessage> {
    if ms == [] then []
    else
      var last := ms[|ms| - 1];
      NoticesIn(ms[..|ms| - 1]) + if last.message.payload.SystemMessage? then [last] else []
  }

  /** The notice an event is worth, in the state it finds. */
  function NoticesFor(r: Rooms, e: Event): seq<OutgoingMessage> {
    var id := e.sessionId;
    match e
    case InvalidPacket(_, text) => [To(id, 0, SystemMessage(0, Rejected(CStr(text))))]
    case JoinRoomRequest(_, _, q) =>
      if id in r.sessions && r.sessions[id].loggedIn && q in r.rooms && r.sessions[id].roomId != q then
        [To(id, 0, SystemMessage(q, Entered(NameOfRoom(q))))]
      else []
    case ChatSendRequest(_, _, content) =>
      if id !in r.sessions || !r.sessions[id].loggedIn then []
      else if r.sessions[id].roomId == 0 then [To(id, 0, SystemMessage(0, JoinFirst))]
      else if |content| == 0 then [To(id, 0, SystemMessage(r.sessions[id].roomId, EmptyChat))]
      else if |content| > 512 then [To(id, 0, SystemMessage(r.sessions[id].roomId, ChatTooLong))]
      else []
    case LeaveRoomRequest(_, _) =>
      if id in r.sessions && r.sessions[id].roomId != 0
          then [To(id, 0, SystemMessage(r.sessions[id].roomId, Departed))] else []
    case _ => []
  }

  ghost predicate Plain(ms: seq<OutgoingMessage>) {
    forall o :: o in ms ==> !o.message.payload.SystemMessage?
  }

  lemma {:induction false} PlainHasNoNotices(ms: seq<OutgoingMessage>)
    requires Plain(ms)
    ensures NoticesIn(ms) == []
  {
    if ms != [] {
      PlainHasNoNotices(ms[..|ms| - 1]);
    }
  }

  lemma {:induction false} NoticesConcat(a: seq<OutgoingMessage>, b: seq<OutgoingMessage>)
    ensures NoticesIn(a + b) == NoticesIn(a) + NoticesIn(b)
  {
    if b == [] {
      assert a + b == a;
    } else {
      NoticesConcat(a, b[..|b| - 1]);
      assert (a + b)[..|a + b| - 1] == a + b[..|b| - 1];
    }
  }

  lemma {:induction false} FanOutIsPlain(ms: seq<SessionState>, room: u32, me: SessionState, user: UserInfo,
      content: Bytes)
    ensures Plain(LeftEvents(ms, room, user)) && Plain(JoinedEvents(ms, room, me))
    ensures Plain(Broadcasts(ms, room, me, content))
  {
    if ms != [] {
      FanOutIsPlain(ms[..|ms| - 1], room, me, user, content);
    }
  }

  lemma LeaveNoticesArePlain(r: Rooms, s: SessionState, order: seq<u32>)
    ensures Plain(LeaveNotices(r, s, order))
  {
    FanOutIsPlain(MemberStates(r, if s.roomId in r.rooms then order else [], Some(s.sessionId)), s.roomId, s,
        InfoOf(s), []);
  }

  /** Plain messages around one notice. */
  lemma OneNotice(a: seq<OutgoingMessage>, o: OutgoingMessage, b: seq<OutgoingMessage>)
    requires Plain(a) && Plain(b)
    ensures NoticesIn(a + [o] + b) == if o.message.payload.SystemMessage? then [o] else []
  {
    PlainHasNoNotices(a);
    PlainHasNoNotices(b);
    NoticesConcat(a, [o]);
    NoticesConcat(a + [o], b);
    assert [o][..0] == [];
  }

  lemma JoinNotices(r: Rooms, id: u32, rid: u32, q: u32, o: Order)
    requires Indexed(r) && FixedRooms(r)
    requires id in r.sessions && r.sessions[id].loggedIn && q in r.rooms && r.sessions[id].roomId != q
    ensures NoticesIn(OnJoin(r, id, rid, q, o).sent) == [To(id, 0, SystemMessage(q, Entered(NameOfRoom(q))))]
  {
    hide OnJoin, LeaveNotices, NoticesIn, Plain, NameOfRoom;
    JoinSends(r, id, rid, q, o);
    RoomIsNamed(r, q);
    var room := InsideRoom(OutOfRoom(r, id), id, q).rooms[q];
    var leaving := LeaveNotices(r, r.sessions[id], o.here);
    var answer := To(id, rid, JoinRoomResponse(true, NoError, Some(RoomInfoOf(room))));
    var notice := To(id, 0, SystemMessage(room.roomId, Entered(CStr(room.roomName))));
    var ms, me := MemberStates(OutOfRoom(r, id), o.there, None), r.sessions[id].(roomId := q);
    LeaveNoticesArePlain(r, r.sessions[id], o.here);
    FanOutIsPlain(ms, room.roomId, me, InfoOf(me), []);
    OneMorePlain(leaving, answer);
    OneNotice(leaving + [answer], notice, JoinedEvents(ms, room.roomId, me));
    assert leaving + [answer, notice] == leaving + [answer] + [notice];
  }

  lemma RoomIsNamed(r: Rooms, q: u32)
    requires Indexed(r) && FixedRooms(r) && q in r.rooms
    ensures r.rooms[q].roomId == q && CStr(r.rooms[q].roomName) == NameOfRoom(q)
  {
    CStrKeepsNulFree(r.rooms[q].roomName);
  }

  lemma OneMorePlain(ms: seq<OutgoingMessage>, o: OutgoingMessage)
    requires Plain(ms) && !o.message.payload.SystemMessage?
    ensures Plain(ms + [o])
  {
  }

  lemma LeaveNoticesIn(r: Rooms, id: u32, rid: u32, o: Order)
    requires id in r.sessions && r.sessions[id].roomId != NO_ROOM_ID
    ensures NoticesIn(OnLeave(r, id, rid, o).sent) == [To(id, 0, SystemMessage(r.sessions[id].roomId, Departed))]
  {
    hide LeaveNotices, NoticesIn, Plain;
    var leaving := LeaveNotices(r, r.sessions[id], o.here);
    var answer := To(id, rid, LeaveRoomResponse(true, NoError));
    var notice := To(id, 0, SystemMessage(r.sessions[id].roomId, Departed));
    LeaveNoticesArePlain(r, r.sessions[id], o.here);
    OneMorePlain(leaving, answer);
    NothingIsPlain();
    OneNotice(leaving + [answer], notice, []);
    assert leaving + [answer, notice] == leaving + [answer] + [notice] + [];
  }

  lemma NothingIsPlain()
    ensures Plain([]) && NoticesIn([]) == []
  {
  }

  lemma ChatNotices(r: Rooms, id: u32, rid: u32, content: Bytes, o: Order)
    ensures NoticesIn(OnChat(r, id, content, o).sent) == NoticesFor(r, ChatSendRequest(id, rid, content))
  {
    hide NoticesIn, Plain, Broadcasts, MemberStates;
    NothingIsPlain();
    var sent := OnChat(r, id, content, o).sent;
    if id in r.sessions && r.sessions[id].loggedIn {
      var s := r.sessions[id];
      FanOutIsPlain(MemberStates(r, if s.roomId in r.rooms then o.here else [], None), s.roomId, s, InfoOf(s), content);
      if s.roomId != NO_ROOM_ID && 1 <= |content| <= MAX_CHAT_MESSAGE_BYTES {
        PlainHasNoNotices(sent);
      } else {
        OneNotice([], sent[0], []);
        assert [] + [sent[0]] + [] == sent;
      }
    }
  }

  /** Every event tells its session exactly the notice it is worth, and nobody else is sent a notice. */
  lemma NoticesExactly(r: Rooms, e: Event, o: Order)
    requires Indexed(r) && FixedRooms(r)
    ensures NoticesIn(Handle(r, e, o).sent) == NoticesFor(r, e)
  {
    hide OnJoin, OnLeave, OnChat, LeaveNotices, NoticesIn, Plain, NameTaken, Listing, Indexed, FixedRooms;
    NothingIsPlain();
    var id, sent := e.sessionId, Handle(r, e, o).sent;
    match e {
      case SessionDisconnected(_) =>
        if id in r.sessions {
          LeaveNoticesArePlain(r, r.sessions[id], o.here);
          PlainHasNoNotices(sent);
        }
      case JoinRoomRequest(_, rid, q) =>
        if id in r.sessions && r.sessions[id].loggedIn && q in r.rooms && r.sessions[id].roomId != q {
          JoinNotices(r, id, rid, q, o);
        } else {
          RefusedJoin(r, id, rid, q, o);
          NoNoticeInOne(sent);
        }
      case ChatSendRequest(_, rid, content) => ChatNotices(r, id, rid, content, o);
      case LeaveRoomRequest(_, rid) =>
        if id in r.sessions && r.sessions[id].roomId != NO_ROOM_ID {
          LeaveNoticesIn(r, id, rid, o);
        } else {
          RefusedLeave(r, id, rid, o);
          NoNoticeInOne(sent);
        }
      case DisconnectRequest(_, rid) =>
        var answer := To(id, rid, DisconnectResponse(true, NoError));
        if id in r.sessions {
          LeaveNoticesArePlain(r, r.sessions[id], o.here);
          OneNotice([], answer, LeaveNotices(r, r.sessions[id], o.here));
          assert [] + [answer] == [answer];
        } else {
          NoNoticeInOne(sent);
        }
      case InvalidPacket(_, _) =>
        OneNotice([], sent[0], []);
        assert [] + [sent[0]] + [] == sent;
      case _ => NoNoticeInOne(sent);
    }
  }

  lemma NoNoticeInOne(ms: seq<OutgoingMessage>)
    requires |ms| <= 1 && (ms != [] ==> !ms[0].message.payload.SystemMessage?)
    ensures NoticesIn(ms) == []
  {
  }

  lemma RefusedJoin(r: Rooms, id: u32, rid: u32, q: u32, o: Order)
    requires !(id in r.sessions && r.sessions[id].loggedIn && q in r.rooms && r.sessions[id].roomId != q)
    ensures var sent := OnJoin(r, id, rid, q, o).sent;
            |sent| <= 1 && (sent != [] ==> sent[0].message.payload.JoinRoomResponse?)
  {
  }

  lemma RefusedLeave(r: Rooms, id: u32, rid: u32, o: Order)
    requires !(id in r.sessions && r.sessions[id].roomId != NO_ROOM_ID)
    ensures var sent := OnLeave(r, id, rid, o).sent;
            |sent| <= 1 && (sent != [] ==> sent[0].message.payload.LeaveRoomResponse?)
  {
  }

  // ----- User infos -----

  /** An info names a session of the table, by its id and its stored name as c_str() leaves it. */
  ghost predicate Names(user: UserInfo, r: Rooms) {
    user.userId in r.sessions && user.displayName == CStr(r.sessions[user.userId].displayName)
  }

  ghost predicate NamesState(s: SessionState, r: Rooms) {
    s.userId in r.sessions && s.displayName == r.sessions[s.userId].displayName
  }

  /** The users announced by some messages are named as in the table. */
  ghost predicate AllNamed(ms: seq<OutgoingMessage>, r: Rooms) {
    forall o :: o in ms ==>
      && (o.message.payload.UserJoinedEvent? ==> Names(o.message.payload.user, r))
      && (o.message.payload.UserLeftEvent? ==> Names(o.message.payload.user, r))
      && (o.message.payload.ChatBroadcast? ==>
            Names(UserInfo(o.message.payload.senderId, o.message.payload.senderName), r))
  }

  lemma {:induction false} MembersAreNamed(r: Rooms, order: seq<u32>, exclude: Option<u32>)
    requires Indexed(r)
    ensures forall m :: m in MemberStates(r, order, exclude) ==> NamesState(m, r)
  {
    if order != [] {
      MembersAreNamed(r, order[..|order| - 1], exclude);
    }
  }

  lemma {:induction false} FanOutNames(r: Rooms, ms: seq<SessionState>, room: u32, me: SessionState, content: Bytes)
    requires NamesState(me, r) && forall m :: m in ms ==> NamesState(m, r)
    ensures AllNamed(LeftEvents(ms, room, InfoOf(me)), r) && AllNamed(JoinedEvents(ms, room, me), r)
    ensures AllNamed(Broadcasts(ms, room, me, content), r)
  {
    if ms != [] {
      assert ms[|ms| - 1] in ms;
      FanOutNames(r, ms[..|ms| - 1], room, me, content);
    }
  }

  lemma LeaveNames(r: Rooms, id: u32, order: seq<u32>)
    requires Indexed(r) && id in r.sessions
    ensures AllNamed(LeaveNotices(r, r.sessions[id], order), r)
  {
    hide AllNamed, MemberStates;
    var s := r.sessions[id];
    var order' := if s.roomId in r.rooms then order else [];
    MembersAreNamed(r, order', Some(s.sessionId));
    FanOutNames(r, MemberStates(r, order', Some(s.sessionId)), s.roomId, s, []);
    NobodyNamed(r);
  }

  lemma NobodyNamed(r: Rooms)
    ensures AllNamed([], r)
  {
  }

  lemma {:induction false} OutNamesTheSame(r: Rooms, id: u32, order: seq<u32>, exclude: Option<u32>)
    requires Indexed(r)
    ensures forall m :: m in MemberStates(OutOfRoom(r, id), order, exclude) ==> NamesState(m, r)
  {
    if order != [] {
      OutNamesTheSame(r, id, order[..|order| - 1], exclude);
    }
  }

  lemma JoinNames(r: Rooms, id: u32, rid: u32, q: u32, o: Order)
    requires Indexed(r)
    ensures AllNamed(OnJoin(r, id, rid, q, o).sent, r)
  {
    hide LeaveNotices, JoinedEvents, MemberStates;
    if id in r.sessions && r.sessions[id].loggedIn && q in r.rooms && r.sessions[id].roomId != q {
      hide OnJoin;
      JoinSends(r, id, rid, q, o);
      LeaveNames(r, id, o.here);
      OutNamesTheSame(r, id, o.there, None);
      var me := r.sessions[id].(roomId := q);
      FanOutNames(r, MemberStates(OutOfRoom(r, id), o.there, None), r.rooms[q].roomId, me, []);
    }
  }

  lemma ChatNames(r: Rooms, id: u32, content: Bytes, o: Order)
    requires Indexed(r)
    ensures AllNamed(OnChat(r, id, content, o).sent, r)
  {
    hide Broadcasts, MemberStates;
    if id in r.sessions {
      var s := r.sessions[id];
      var here := if s.roomId in r.rooms then o.here else [];
      MembersAreNamed(r, here, None);
      FanOutNames(r, MemberStates(r, here, None), s.roomId, s, content);
    }
  }

  /** Whoever joins, leaves or speaks is shown under the stored name; a login is answered with the name just given. */
  lemma UsersAreNamed(r: Rooms, e: Event, o: Order)
    requires Indexed(r)
    ensures AllNamed(Handle(r, e, o).sent, r)
    ensures forall m :: m in Handle(r, e, o).sent && m.message.payload.LoginResponse? && m.message.payload.success ==>
              e.LoginRequest? && m.message.payload.account == Some(UserInfo(e.sessionId, CStr(e.displayName)))
  {
    hide OnJoin, OnChat, LeaveNotices, NameTaken, Listing;
    match e {
      case SessionDisconnected(id) =>
        if id in r.sessions {
          LeaveNames(r, id, o.here);
          NoLogins(r, r.sessions[id], o.here);
        }
      case JoinRoomRequest(id, rid, q) =>
        JoinNames(r, id, rid, q, o);
        LoginsAreAnswered(r, e, o);
      case ChatSendRequest(id, _, content) =>
        ChatNames(r, id, content, o);
        LoginsAreAnswered(r, e, o);
      case LeaveRoomRequest(id, _) =>
        if id in r.sessions {
          LeaveNames(r, id, o.here);
          NoLogins(r, r.sessions[id], o.here);
        }
      case DisconnectRequest(id, _) =>
        if id in r.sessions {
          LeaveNames(r, id, o.here);
          NoLogins(r, r.sessions[id], o.here);
        }
      case _ =>
    }
  }

  lemma NoLogins(r: Rooms, s: SessionState, order: seq<u32>)
    ensures forall m :: m in LeaveNotices(r, s, order) ==> !m.message.payload.LoginResponse?
  {
    LeaveNoticesAreUnasked(r, s, order);
  }

  lemma LoginsAreAnswered(r: Rooms, e: Event, o: Order)
    ensures forall m :: m in Handle(r, e, o).sent && m.message.payload.LoginResponse? ==> e.LoginRequest?
  {
    hide Handle, Answers;
    StepAnswers(r, e, o);
    forall m | m in Handle(r, e, o).sent && m.message.payload.LoginResponse? ensures e.LoginRequest? {
      AnswerIsTicket(Handle(r, e, o).sent, m);
    }
  }

  // ----- Whom an event concerns -----

  /**
   * An event changes the entry of its own session only; the name and the login only by a login, the room only by
   * joining or leaving, and nothing else of it ever.
   */
  lemma OnlyOwnEntry(r: Rooms, e: Event, o: Order, s: u32)
    ensures var r' := Handle(r, e, o).rooms;
            && (s != e.sessionId ==> (s in r'.sessions <==> s in r.sessions))
            && (s in r.sessions && s in r'.sessions ==>
                  var old', new' := r.sessions[s], r'.sessions[s];
                  && (s != e.sessionId ==> new' == old')
                  && new'.sessionId == old'.sessionId && new'.userId == old'.userId
                  && (!e.LoginRequest? ==> new'.displayName == old'.displayName && new'.loggedIn == old'.loggedIn)
                  && (!e.JoinRoomRequest? && !e.LeaveRoomRequest? ==> new'.roomId == old'.roomId))
            && (s !in r.sessions && s in r'.sessions ==>
                  e.SessionConnected? && r'.sessions[s] == SessionState(s, s, [], 0, false))
  {
    hide LeaveNotices, MemberStates, JoinedEvents, Broadcasts, Listing;
  }

  // ----- Logins -----

  /** Another session is logged in under the name. */
  ghost predicate HeldByOther(r: Rooms, name: Bytes, id: u32) {
    exists s :: s in r.sessions && s != id && r.sessions[s].loggedIn && r.sessions[s].displayName == name
  }

  /**
   * Exactly when a known session's login succeeds: the name has 1 to 32 bytes and no other session is logged in under
   * it; the length is judged first.
   */
  lemma LoginExactly(r: Rooms, id: u32, rid: u32, name: Bytes)
    requires id in r.sessions
    ensures var sent := OnLogin(r, id, rid, name).sent;
            && |sent| == 1 && sent[0].sessionId == id && sent[0].message.requestId == rid
            && sent[0].message.payload.LoginResponse?
            && var p := sent[0].message.payload;
               && (p.success <==> 1 <= |name| <= 32 && !HeldByOther(r, name, id))
               && (p.error == InvalidName <==> !(1 <= |name| <= 32))
               && (p.error == DuplicateName <==> 1 <= |name| <= 32 && HeldByOther(r, name, id))
  {
    assert NameTaken(r, name, id) <==> HeldByOther(r, name, id);
  }

  // ----- What is dropped for its size -----

  lemma {:induction false} SiftKeepsFitting(size: Message -> nat, ms: seq<OutgoingMessage>)
    ensures forall o :: o in Sift(size, ms) <==> o in ms && Fits(size, o.message)
    ensures Subsequence(Sift(size, ms), ms)
  {
    hide Fits, Sift, Subsequence;
    OneSifted(size, ms);
    if ms == [] {
      SubsequenceRefl(ms);
    } else {
      var init, last := ms[..|ms| - 1], ms[|ms| - 1];
      assert ms == init + [last];
      SiftKeepsFitting(size, init);
      if Fits(size, last.message) {
        SubsequenceKeep(Sift(size, init), init, last);
      } else {
        assert Sift(size, init) + [] == Sift(size, init);
        SubsequenceSkip(Sift(size, init), init, last);
      }
    }
  }

  lemma {:induction false} SiftKeepsAll(size: Message -> nat, ms: seq<OutgoingMessage>)
    requires forall o :: o in ms ==> Fits(size, o.message)
    ensures Sift(size, ms) == ms
  {
    hide Fits, Sift;
    OneSifted(size, ms);
    if ms != [] {
      assert ms == ms[..|ms| - 1] + [ms[|ms| - 1]];
      SiftKeepsAll(size, ms[..|ms| - 1]);
    }
  }

  /** Messages whose encodings have 1 to 2048 bytes are kept, in order; no others. */
  lemma SiftExactly(size: Message -> nat, ms: seq<OutgoingMessage>)
    ensures forall o :: o in Sift(size, ms) <==> o in ms && 1 <= size(o.message) <= 2048
    ensures (forall o :: o in ms ==> 1 <= size(o.message) <= 2048) ==> Sift(size, ms) == ms
    ensures Subsequence(Sift(size, ms), ms)
  {
    hide Sift, Subsequence;
    SiftKeepsFitting(size, ms);
    if forall o :: o in ms ==> 1 <= size(o.message) <= 2048 {
      SiftKeepsAll(size, ms);
    }
  }

  // ----- The order of a session's own messages -----

  function Own(ms: seq<OutgoingMessage>, id: u32): seq<Payload> {
    if ms == [] then []
    else
      var last := ms[|ms| - 1];
      Own(ms[..|ms| - 1], id) + if last.sessionId == id then [last.message.payload] else []
  }

  lemma {:induction false} OwnConcat(a: seq<OutgoingMessage>, b: seq<OutgoingMessage>, id: u32)
    ensures Own(a + b, id) == Own(a, id) + Own(b, id)
  {
    if b == [] {
      assert a + b == a;
    } else {
      OwnConcat(a, b[..|b| - 1], id);
      assert (a + b)[..|a + b| - 1] == a + b[..|b| - 1];
    }
  }

  lemma {:induction false} NoneOwn(ms: seq<OutgoingMessage>, id: u32)
    requires forall o :: o in ms ==> o.sessionId != id
    ensures Own(ms, id) == []
  {
    if ms != [] {
      NoneOwn(ms[..|ms| - 1], id);
    }
  }

  lemma OneOwn(id: u32, rid: u32, p: Payload)
    ensures Own([To(id, rid, p)], id) == [p]
  {
    assert [To(id, rid, p)][..0] == [];
  }

  lemma {:induction false} OthersAreTold(ms: seq<SessionState>, room: u32, user: UserInfo, id: u32)
    requires forall m :: m in ms ==> m.sessionId != id
    ensures forall o :: o in LeftEvents(ms, room, user) ==> o.sessionId != id
  {
    if ms != [] {
      assert ms[|ms| - 1] in ms;
      OthersAreTold(ms[..|ms| - 1], room, user, id);
    }
  }

  lemma {:induction false} ExcludedIsOut(r: Rooms, order: seq<u32>, id: u32)
    requires Indexed(r)
    ensures forall m :: m in MemberStates(r, order, Some(id)) ==> m.sessionId != id
  {
    if order != [] {
      ExcludedIsOut(r, order[..|order| - 1], id);
    }
  }

  /** A session is not told of its own departure. */
  lemma LeaversHearNothing(r: Rooms, id: u32, order: seq<u32>)
    requires Indexed(r) && id in r.sessions
    ensures Own(LeaveNotices(r, r.sessions[id], order), id) == []
  {
    hide MemberStates, LeftEvents, Own;
    var s := r.sessions[id];
    ExcludedIsOut(r, if s.roomId in r.rooms then order else [], id);
    OthersAreTold(MemberStates(r, if s.roomId in r.rooms then order else [], Some(id)), s.roomId, InfoOf(s), id);
    NoneOwn(LeaveNotices(r, s, order), id);
  }

  lemma {:induction false} NewcomerHearsJoins(ms: seq<SessionState>, room: u32, me: SessionState)
    ensures forall p :: p in Own(JoinedEvents(ms, room, me), me.sessionId) ==> p.UserJoinedEvent?
  {
    if ms != [] {
      var init, other := ms[..|ms| - 1], ms[|ms| - 1];
      NewcomerHearsJoins(init, room, me);
      if other.loggedIn {
        OneIntroductionMore(ms, room, me);
        var a, b := To(other.sessionId, 0, UserJoinedEvent(room, InfoOf(me))),
            To(me.sessionId, 0, UserJoinedEvent(room, InfoOf(other)));
        OwnConcat(JoinedEvents(init, room, me) + [a], [b], me.sessionId);
        OwnConcat(JoinedEvents(init, room, me), [a], me.sessionId);
        assert [a][..0] == [] && [b][..0] == [];
      } else {
        assert JoinedEvents(init, room, me) + [] == JoinedEvents(init, room, me);
      }
    }
  }

  /** Whoever joins a room gets the response, then the notice, then the introductions. */
  lemma JoinerIsToldInOrder(r: Rooms, id: u32, rid: u32, q: u32, o: Order)
    requires Indexed(r) && FixedRooms(r)
    requires id in r.sessions && r.sessions[id].loggedIn && q in r.rooms && r.sessions[id].roomId != q
    ensures var own := Own(OnJoin(r, id, rid, q, o).sent, id);
            && |own| >= 2 && own[0].JoinRoomResponse? && own[1] == SystemMessage(q, Entered(NameOfRoom(q)))
            && forall p :: p in own[2..] ==> p.UserJoinedEvent?
  {
    hide OnJoin, LeaveNotices, JoinedEvents, MemberStates, Own, NameOfRoom, RoomInfoOf;
    JoinSends(r, id, rid, q, o);
    RoomIsNamed(r, q);
    var room := InsideRoom(OutOfRoom(r, id), id, q).rooms[q];
    var leaving := LeaveNotices(r, r.sessions[id], o.here);
    var answer := JoinRoomResponse(true, NoError, Some(RoomInfoOf(room)));
    var notice := SystemMessage(room.roomId, Entered(CStr(room.roomName)));
    var ms, me := MemberStates(OutOfRoom(r, id), o.there, None), r.sessions[id].(roomId := q);
    var joins := JoinedEvents(ms, room.roomId, me);
    LeaversHearNothing(r, id, o.here);
    NewcomerHearsJoins(ms, room.roomId, me);
    OneOwn(id, rid, answer);
    OneOwn(id, 0, notice);
    OwnConcat(leaving, [To(id, rid, answer)], id);
    OwnConcat(leaving + [To(id, rid, answer)], [To(id, 0, notice)], id);
    OwnConcat(leaving + [To(id, rid, answer)] + [To(id, 0, notice)], joins, id);
    assert leaving + [To(id, rid, answer), To(id, 0, notice)] == leaving + [To(id, rid, answer)] + [To(id, 0, notice)];
    assert Own(OnJoin(r, id, rid, q, o).sent, id) == [answer, notice] + Own(joins, id);
  }

  /** Whoever leaves a room gets the response, then the notice. */
  lemma LeaverIsToldInOrder(r: Rooms, id: u32, rid: u32, o: Order)
    requires Indexed(r) && id in r.sessions && r.sessions[id].roomId != NO_ROOM_ID
    ensures Own(OnLeave(r, id, rid, o).sent, id)
            == [LeaveRoomResponse(true, NoError), SystemMessage(r.sessions[id].roomId, Departed)]
  {
    hide LeaveNotices, Own;
    var leaving := LeaveNotices(r, r.sessions[id], o.here);
    var answer, notice := LeaveRoomResponse(true, NoError), SystemMessage(r.sessions[id].roomId, Departed);
    LeaversHearNothing(r, id, o.here);
    OneOwn(id, rid, answer);
    OneOwn(id, 0, notice);
    OwnConcat(leaving, [To(id, rid, answer)], id);
    OwnConcat(leaving + [To(id, rid, answer)], [To(id, 0, notice)], id);
    assert leaving + [To(id, rid, answer), To(id, 0, notice)] == leaving + [To(id, rid, answer)] + [To(id, 0, notice)];
  }
}
