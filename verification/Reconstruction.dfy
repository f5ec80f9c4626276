/**
 * Every client can rebuild its room and the others in it from the messages addressed to it, at every point of every
 * run.
 */
module Reconstruction {
  import opened Bytes
  import opened ServerTypes
  import opened RoomSystems
  import opened Chat
  import opened ChatViews

  // ----- Leaving -----

  lemma LeaversView(r: Rooms, id: u32, s: u32)
    requires Indexed(r) && id in r.sessions && s in r.sessions && s != id
    ensures s in OutOfRoom(r, id).sessions && s in WithoutSession(r, id).sessions
    ensures Truth(OutOfRoom(r, id), s) == Truth(r, s).(others := Others(r, s) - {id})
    ensures Truth(WithoutSession(r, id), s) == Truth(r, s).(others := Others(r, s) - {id})
  {
    OutOfRoomKeepsIndex(r, id);
    RemoveKeepsIndex(r, id);
    var out, gone := OutOfRoom(r, id), WithoutSession(r, id);
    OthersAreTogether(r, s);
    OthersAreTogether(out, s);
    OthersAreTogether(gone, s);
    assert forall t :: Together(out, s, t) <==> Together(r, s, t) && t != id;
    assert forall t :: Together(gone, s, t) <==> Together(r, s, t) && t != id;
    assert Others(out, s) == Others(r, s) - {id};
    assert Others(gone, s) == Others(r, s) - {id};
  }

  /** The members a query returns for a room, with the sessions in it. */
  lemma QueryFacts(r: Rooms, room: u32, order: seq<u32>, exclude: Option<u32>, s: u32)
    requires Indexed(r) && NamesOk(r) && room in r.rooms && Enumerates(order, r.rooms[room].members)
    ensures var ms := MemberStates(r, order, exclude);
            && Distinct(ms)
            && (Has(ms, s) <==> InRoom(r, s, room) && exclude != Some(s))
            && (forall m :: m in ms ==> m.loggedIn)
  {
    var ms := MemberStates(r, order, exclude);
    MembersAreFilteredTable(r, order, exclude, r.rooms[room].members);
    RoomMembersAreFilteredTable(r, room, order, exclude);
    if InRoom(r, s, room) && exclude != Some(s) {
      assert r.sessions[s] in ms;
    }
  }

  lemma LeaveView(r: Rooms, id: u32, order: seq<u32>, s: u32)
    requires Indexed(r) && NamesOk(r) && id in r.sessions && s in r.sessions
    requires Enumerates(order, MembersOf(r, r.sessions[id].roomId))
    ensures var sent := LeaveNotices(r, r.sessions[id], order);
            && Coherent(Truth(r, s), s, sent)
            && Fold(Truth(r, s), s, sent)
               == if s == id then Truth(r, s) else Truth(r, s).(others := Others(r, s) - {id})
  {
    OthersAreTogether(r, s);
    var me := r.sessions[id];
    if me.roomId == NO_ROOM_ID {
      assert s != id ==> Others(r, s) - {id} == Others(r, s);
    } else {
      QueryFacts(r, me.roomId, order, Some(id), s);
      FoldLeft(Truth(r, s), s, MemberStates(r, order, Some(id)), me.roomId, InfoOf(me));
      assert !Together(r, s, id) && s != id ==> Others(r, s) - {id} == Others(r, s);
    }
  }

  // ----- Joining -----

  lemma JoinersView(out: Rooms, id: u32, q: u32, s: u32)
    requires Indexed(out) && id in out.sessions && s in out.sessions && q in out.rooms
    requires out.sessions[id].roomId == NO_ROOM_ID
    ensures var joined := InsideRoom(out, id, q);
            && s in joined.sessions
            && (s != id ==> Truth(joined, s)
                            == Truth(out, s).(others := Others(out, s) + if out.sessions[s].roomId == q then {id}
                                else {}))
            && (s == id ==> Truth(joined, s) == ClientView(q, out.rooms[q].members))
  {
    MoveKeepsIndex(out, id, q);
    var joined := InsideRoom(out, id, q);
    OthersAreTogether(out, s);
    OthersAreTogether(joined, s);
    if s == id {
      assert forall t :: Together(joined, s, t) <==> t != id && InRoom(out, t, q);
      assert Others(joined, s) == out.rooms[q].members;
    } else {
      assert forall t :: Together(joined, s, t) <==> Together(out, s, t) || (t == id && out.sessions[s].roomId == q);
      assert Others(joined, s) == Others(out, s) + if out.sessions[s].roomId == q then {id} else {};
    }
  }

  lemma IdsOfMembers(r: Rooms, q: u32, order: seq<u32>)
    requires Indexed(r) && q in r.rooms && Enumerates(order, r.rooms[q].members)
    ensures IdsIn(MemberStates(r, order, None)) == r.rooms[q].members
  {
    RoomMembersAreFilteredTable(r, q, order, None);
    var ms := MemberStates(r, order, None);
    forall t | t in r.rooms[q].members ensures t in IdsIn(ms) {
      assert InRoom(r, t, q);
      assert r.sessions[t] in ms;
    }
    forall m | m in ms ensures m.sessionId in r.rooms[q].members {
      assert InRoom(r, m.sessionId, q);
    }
  }

  /** The introductions after a join, seen by any session. */
  lemma IntroductionsView(out: Rooms, id: u32, q: u32, order: seq<u32>, s: u32)
    requires Indexed(out) && NamesOk(out) && id in out.sessions && s in out.sessions && q in out.rooms
    requires out.sessions[id].roomId == NO_ROOM_ID && Enumerates(order, out.rooms[q].members)
    ensures var v := if s == id then ClientView(q, {}) else Truth(out, s);
            var sent := JoinedEvents(MemberStates(out, order, None), q, out.sessions[id].(roomId := q));
            && Coherent(v, s, sent)
            && Fold(v, s, sent) == Truth(InsideRoom(out, id, q), s)
  {
    var ms, me := MemberStates(out, order, None), out.sessions[id].(roomId := q);
    QueryFacts(out, q, order, None, s);
    JoinersView(out, id, q, s);
    if s == id {
      IdsOfMembers(out, q, order);
      FoldJoinedMe(ClientView(q, {}), ms, q, me);
    } else {
      OthersAreTogether(out, s);
      FoldJoinedOther(Truth(out, s), s, ms, q, me);
      assert Others(out, s) + {} == Others(out, s);
    }
  }

  /** The response and the system message of a join: a fresh view for the newcomer, nothing for the others. */
  lemma JoinAnnounced(v: ClientView, s: u32, id: u32, rid: u32, room: RoomState, notice: Payload)
    requires notice.SystemMessage? && (s == id ==> room.roomId != v.room && room.roomId != NO_ROOM_ID)
    ensures var sent := [To(id, rid, JoinRoomResponse(true, NoError, Some(RoomInfoOf(room)))), To(id, 0, notice)];
            && Coherent(v, s, sent)
            && Fold(v, s, sent) == if s == id then ClientView(room.roomId, {}) else v
  {
    var a, b := To(id, rid, JoinRoomResponse(true, NoError, Some(RoomInfoOf(room)))), To(id, 0, notice);
    OneMore(v, s, [], a);
    OneMore(v, s, [] + [a], b);
    assert ([] + [a]) + [b] == [a, b];
  }

  lemma JoinView(r: Rooms, id: u32, rid: u32, q: u32, o: Order, s: u32)
    requires GameOk(r) && s in r.sessions
    requires id in r.sessions && r.sessions[id].loggedIn && q in r.rooms && r.sessions[id].roomId != q
    requires Enumerates(o.here, MembersOf(r, r.sessions[id].roomId)) && Enumerates(o.there, r.rooms[q].members)
    ensures var x := OnJoin(r, id, rid, q, o);
            && s in x.rooms.sessions
            && Coherent(Truth(r, s), s, x.sent)
            && Fold(Truth(r, s), s, x.sent) == Truth(x.rooms, s)
  {
    hide OnJoin, LeaveNotices, JoinedEvents, NamesOk, Indexed, Truth, Enumerates;
    var out, room := OutOfRoom(r, id), InsideRoom(OutOfRoom(r, id), id, q).rooms[q];
    JoinSends(r, id, rid, q, o);
    var leaving := LeaveNotices(r, r.sessions[id], o.here);
    var notice := SystemMessage(room.roomId, Entered(CStr(room.roomName)));
    var announced := [To(id, rid, JoinRoomResponse(true, NoError, Some(RoomInfoOf(room)))), To(id, 0, notice)];
    var introduced := JoinedEvents(MemberStates(out, o.there, None), q, r.sessions[id].(roomId := q));
    JoinRooms(r, id, q);
    var v0 := Truth(r, s);
    LeaveView(r, id, o.here, s);
    var v1 := Fold(v0, s, leaving);
    if s != id {
      LeaversView(r, id, s);
    }
    JoinAnnounced(v1, s, id, rid, room, notice);
    FoldConcat(v0, s, leaving, announced);
    CoherentConcat(v0, s, leaving, announced);
    IntroductionsView(out, id, q, o.there, s);
    FoldConcat(v0, s, leaving + announced, introduced);
    CoherentConcat(v0, s, leaving + announced, introduced);
  }

  lemma JoinRooms(r: Rooms, id: u32, q: u32)
    requires GameOk(r) && id in r.sessions && q in r.rooms && r.sessions[id].roomId != q && r.sessions[id].loggedIn
    ensures var out := OutOfRoom(r, id);
            && Indexed(out) && NamesOk(out) && out.sessions.Keys == r.sessions.Keys && q in out.rooms
            && out.sessions[id] == r.sessions[id].(roomId := NO_ROOM_ID)
            && out.rooms[q].members == r.rooms[q].members && r.rooms[q].roomId == q && q != NO_ROOM_ID
            && Truth(r, id).room == r.sessions[id].roomId
            && InsideRoom(out, id, q).sessions.Keys == r.sessions.Keys
  {
    OutOfRoomKeepsIndex(r, id);
    NamesKeptByLeaving(r, id);
  }

  // ----- The other handlers -----

  /** Messages without effect on the view of `s`, and sensible anywhere. */
  predicate Neutral(p: Payload) {
    match p
    case LoginResponse(_, _, _) => true
    case RoomListResponse(_) => true
    case JoinRoomResponse(success, _, _) => !success
    case LeaveRoomResponse(success, _) => !success
    case DisconnectResponse(_, _) => true
    case SystemMessage(_, _) => true
    case _ => false
  }

  lemma NeutralView(v: ClientView, s: u32, o: OutgoingMessage)
    requires o.sessionId == s ==> Neutral(o.message.payload)
    ensures Coherent(v, s, [o]) && Fold(v, s, [o]) == v
  {
    OneMore(v, s, [], o);
    assert [] + [o] == [o];
  }

  lemma LoginView(r: Rooms, id: u32, rid: u32, name: Bytes, s: u32)
    requires Indexed(r) && s in r.sessions
    ensures var x := OnLogin(r, id, rid, name);
            && s in x.rooms.sessions && Truth(x.rooms, s) == Truth(r, s)
            && Coherent(Truth(r, s), s, x.sent) && Fold(Truth(r, s), s, x.sent) == Truth(r, s)
  {
    var x := OnLogin(r, id, rid, name);
    LoginKeepsIndex(r, id, name);
    OthersAreTogether(r, s);
    OthersAreTogether(x.rooms, s);
    assert forall t :: Together(x.rooms, s, t) <==> Together(r, s, t);
    assert Others(x.rooms, s) == Others(r, s);
    if x.sent != [] {
      NeutralView(Truth(r, s), s, x.sent[0]);
    }
  }

  lemma ConnectView(r: Rooms, id: u32, s: u32)
    requires Indexed(r) && s in r.sessions
    ensures s in WithSession(r, id).sessions && Truth(WithSession(r, id), s) == Truth(r, s)
  {
    AddKeepsIndex(r, id);
    var r' := WithSession(r, id);
    OthersAreTogether(r, s);
    OthersAreTogether(r', s);
    assert forall t :: Together(r', s, t) <==> Together(r, s, t);
    assert Others(r', s) == Others(r, s);
  }

  lemma ChatView(r: Rooms, id: u32, content: Bytes, o: Order, s: u32, v: ClientView)
    requires GameOk(r) && Enumerates(o.here, MembersOf(r, RoomOf(r, id)))
    requires s in r.sessions ==> v == Truth(r, s)
    ensures Coherent(v, s, OnChat(r, id, content, o).sent)
    ensures Fold(v, s, OnChat(r, id, content, o).sent) == v
  {
    var sent := OnChat(r, id, content, o).sent;
    if id in r.sessions && r.sessions[id].loggedIn {
      var me := r.sessions[id];
      if me.roomId != NO_ROOM_ID && content != [] && |content| <= MAX_CHAT_MESSAGE_BYTES {
        QueryFacts(r, me.roomId, o.here, None, s);
        if s in r.sessions {
          OthersAreTogether(r, s);
          assert InRoom(r, s, me.roomId) ==> s == id || Together(r, s, id);
        }
        FoldBroadcasts(v, s, MemberStates(r, o.here, None), me.roomId, me, content);
      } else {
        NeutralView(v, s, sent[0]);
      }
    }
  }

  /** The response to a leave and the notice, after the notices to the room. */
  lemma LeaveAnswered(v: ClientView, s: u32, leaving: seq<OutgoingMessage>, id: u32, rid: u32, room: u32)
    requires Coherent(v, s, leaving) && (s == id ==> Fold(v, s, leaving).room != NO_ROOM_ID)
    ensures var sent := leaving
            + [To(id, rid, LeaveRoomResponse(true, NoError)), To(id, 0, SystemMessage(room, Departed))];
            Coherent(v, s, sent) && Fold(v, s, sent) == if s == id then Nowhere else Fold(v, s, leaving)
  {
    hide Fold, Coherent;
    var a, b := To(id, rid, LeaveRoomResponse(true, NoError)), To(id, 0, SystemMessage(room, Departed));
    OneMore(v, s, leaving, a);
    OneMore(v, s, leaving + [a], b);
    assert leaving + [a, b] == (leaving + [a]) + [b];
  }

  lemma LeaveSends(r: Rooms, id: u32, rid: u32, o: Order)
    requires id in r.sessions && r.sessions[id].roomId != NO_ROOM_ID
    ensures OnLeave(r, id, rid, o).rooms == OutOfRoom(r, id)
    ensures OnLeave(r, id, rid, o).sent
            == LeaveNotices(r, r.sessions[id], o.here)
               + [To(id, rid, LeaveRoomResponse(true, NoError)),
                   To(id, 0, SystemMessage(r.sessions[id].roomId, Departed))]
  {
    hide LeaveNotices, OutOfRoom;
  }

  lemma RefusedLeaveView(r: Rooms, id: u32, rid: u32, o: Order, s: u32)
    requires s in r.sessions && (id in r.sessions ==> r.sessions[id].roomId == NO_ROOM_ID)
    ensures var x := OnLeave(r, id, rid, o);
            && x.rooms == r
            && Coherent(Truth(r, s), s, x.sent) && Fold(Truth(r, s), s, x.sent) == Truth(r, s)
  {
    hide Truth;
    var x := OnLeave(r, id, rid, o);
    if id in r.sessions {
      NeutralView(Truth(r, s), s, x.sent[0]);
    }
  }

  lemma LeaveRequestView(r: Rooms, id: u32, rid: u32, o: Order, s: u32)
    requires GameOk(r) && s in r.sessions && Enumerates(o.here, MembersOf(r, RoomOf(r, id)))
    ensures var x := OnLeave(r, id, rid, o);
            && s in x.rooms.sessions
            && Coherent(Truth(r, s), s, x.sent) && Fold(Truth(r, s), s, x.sent) == Truth(x.rooms, s)
  {
    hide LeaveNotices, NamesOk, Indexed, Enumerates, OnLeave, OutOfRoom, Fold, Coherent, Others;
    if id in r.sessions && r.sessions[id].roomId != NO_ROOM_ID {
      LeaveSends(r, id, rid, o);
      LeaveView(r, id, o.here, s);
      LeaveAnswered(Truth(r, s), s, LeaveNotices(r, r.sessions[id], o.here), id, rid, r.sessions[id].roomId);
      if s == id {
        LeftSelfView(r, id);
      } else {
        LeaversView(r, id, s);
      }
    } else {
      RefusedLeaveView(r, id, rid, o, s);
    }
  }

  lemma LeftSelfView(r: Rooms, id: u32)
    requires id in r.sessions
    ensures id in OutOfRoom(r, id).sessions && Truth(OutOfRoom(r, id), id) == Nowhere
  {
    assert Others(OutOfRoom(r, id), id) == {};
  }

  /** Disconnecting, by request or not: the others see the session leave, its own view no longer matters. */
  lemma GoneView(r: Rooms, id: u32, o: Order, s: u32)
    requires GameOk(r) && s in r.sessions && Enumerates(o.here, MembersOf(r, RoomOf(r, id)))
    ensures var x := OnDisconnected(r, id, o);
            && Coherent(Truth(r, s), s, x.sent)
            && (s in x.rooms.sessions ==> Fold(Truth(r, s), s, x.sent) == Truth(x.rooms, s))
            && (s in x.rooms.sessions <==> s != id)
  {
    hide LeaveNotices, NamesOk, Indexed, Enumerates;
    if id in r.sessions {
      LeaveView(r, id, o.here, s);
      if s != id {
        LeaversView(r, id, s);
      }
    } else {
      NobodyLeft(r, id);
    }
  }

  lemma NobodyLeft(r: Rooms, id: u32)
    requires id !in r.sessions
    ensures WithoutSession(r, id) == r
  {
    assert r.sessions - {id} == r.sessions;
  }

  lemma DisconnectRequestView(r: Rooms, id: u32, rid: u32, o: Order, s: u32)
    requires GameOk(r) && s in r.sessions && Enumerates(o.here, MembersOf(r, RoomOf(r, id)))
    ensures var x := OnDisconnectRequest(r, id, rid, o);
            && Coherent(Truth(r, s), s, x.sent)
            && (s in x.rooms.sessions ==> Fold(Truth(r, s), s, x.sent) == Truth(x.rooms, s))
  {
    hide LeaveNotices, GameOk, Enumerates, WithoutSession;
    GoneView(r, id, o, s);
    var first := To(id, rid, DisconnectResponse(true, NoError));
    NeutralView(Truth(r, s), s, first);
    var rest := OnDisconnected(r, id, o).sent;
    FoldConcat(Truth(r, s), s, [first], rest);
    CoherentConcat(Truth(r, s), s, [first], rest);
  }

  /** One event: every live session's view follows the server's tables, and every message makes sense on arrival. */
  lemma StepView(r: Rooms, e: Event, o: Order, s: u32)
    requires GameOk(r) && GoodOrder(r, e, o) && s in r.sessions
    ensures var x := Handle(r, e, o);
            && Coherent(Truth(r, s), s, x.sent)
            && (s in x.rooms.sessions ==> Fold(Truth(r, s), s, x.sent) == Truth(x.rooms, s))
  {
    hide NamesOk, Indexed, Enumerates, Truth, OnLogin, OnChat, OnLeave, OnDisconnected, OnDisconnectRequest;
    match e {
      case SessionConnected(id) => ConnectView(r, id, s);
      case SessionDisconnected(id) => GoneView(r, id, o, s);
      case InvalidPacket(id, text) => NeutralView(Truth(r, s), s, To(id, 0, SystemMessage(0, Rejected(CStr(text)))));
      case LoginRequest(id, rid, name) => LoginView(r, id, rid, name, s);
      case RoomListRequest(id, rid) => NeutralView(Truth(r, s), s, To(id, rid, RoomListResponse(Listing(r, o.rooms))));
      case JoinRoomRequest(id, rid, q) =>
        if id in r.sessions && r.sessions[id].loggedIn && q in r.rooms && r.sessions[id].roomId != q {
          JoinView(r, id, rid, q, o, s);
        } else if id in r.sessions {
          NeutralView(Truth(r, s), s, OnJoin(r, id, rid, q, o).sent[0]);
        }
      case ChatSendRequest(id, _, content) =>
        ChatView(r, id, content, o, s, Truth(r, s));
        ChatKeepsRooms(r, id, content, o);
      case LeaveRoomRequest(id, rid) => LeaveRequestView(r, id, rid, o, s);
      case DisconnectRequest(id, rid) => DisconnectRequestView(r, id, rid, o, s);
    }
  }

  // ----- Sessions the server does not know -----

  lemma StrangersHearNoNews(r: Rooms, id: u32, order: seq<u32>, s: u32, v: ClientView)
    requires Indexed(r) && NamesOk(r) && id in r.sessions && s !in r.sessions
    requires Enumerates(order, MembersOf(r, r.sessions[id].roomId))
    ensures Coherent(v, s, LeaveNotices(r, r.sessions[id], order))
    ensures Fold(v, s, LeaveNotices(r, r.sessions[id], order)) == v
  {
    var me := r.sessions[id];
    if me.roomId != NO_ROOM_ID {
      QueryFacts(r, me.roomId, order, Some(id), s);
      FoldLeft(v, s, MemberStates(r, order, Some(id)), me.roomId, InfoOf(me));
    }
  }

  lemma StrangersHearNoJoins(r: Rooms, id: u32, rid: u32, q: u32, o: Order, s: u32, v: ClientView)
    requires GameOk(r) && s !in r.sessions
    requires id in r.sessions && r.sessions[id].loggedIn && q in r.rooms && r.sessions[id].roomId != q
    requires Enumerates(o.here, MembersOf(r, r.sessions[id].roomId)) && Enumerates(o.there, r.rooms[q].members)
    ensures Coherent(v, s, OnJoin(r, id, rid, q, o).sent)
  {
    hide OnJoin, LeaveNotices, JoinedEvents, NamesOk, Indexed, Enumerates;
    var out, room := OutOfRoom(r, id), InsideRoom(OutOfRoom(r, id), id, q).rooms[q];
    JoinSends(r, id, rid, q, o);
    var leaving := LeaveNotices(r, r.sessions[id], o.here);
    var notice := SystemMessage(room.roomId, Entered(CStr(room.roomName)));
    var announced := [To(id, rid, JoinRoomResponse(true, NoError, Some(RoomInfoOf(room)))), To(id, 0, notice)];
    var ms, me := MemberStates(out, o.there, None), r.sessions[id].(roomId := q);
    JoinRooms(r, id, q);
    StrangersHearNoNews(r, id, o.here, s, v);
    JoinAnnounced(v, s, id, rid, room, notice);
    FoldConcat(v, s, leaving, announced);
    CoherentConcat(v, s, leaving, announced);
    QueryFacts(out, q, o.there, None, s);
    SessionsAreNumbered(r, id);
    FoldJoinedOther(v, s, ms, q, me);
    CoherentConcat(v, s, leaving + announced, JoinedEvents(ms, q, me));
  }

  lemma SessionsAreNumbered(r: Rooms, id: u32)
    requires Indexed(r) && id in r.sessions
    ensures r.sessions[id].sessionId == id && r.sessions[id].userId == id
  {
  }

  /**
   * One event: a session unknown to the server gets at most answers without effect on a view; a session just added
   * starts afresh.
   */
  lemma StrangerStep(r: Rooms, e: Event, o: Order, s: u32, v: ClientView)
    requires GameOk(r) && GoodOrder(r, e, o) && s !in r.sessions
    ensures Coherent(v, s, Handle(r, e, o).sent)
    ensures s in Handle(r, e, o).rooms.sessions
            ==> Handle(r, e, o).sent == [] && Truth(Handle(r, e, o).rooms, s) == Nowhere
  {
    hide NamesOk, Indexed, Enumerates, LeaveNotices;
    match e {
      case SessionConnected(id) =>
        if s == id {
          assert Others(WithSession(r, id), s) == {};
        }
      case SessionDisconnected(id) =>
        if id in r.sessions {
          StrangersHearNoNews(r, id, o.here, s, v);
        }
      case InvalidPacket(id, text) => NeutralView(v, s, To(id, 0, SystemMessage(0, Rejected(CStr(text)))));
      case LoginRequest(_, _, _) =>
      case RoomListRequest(id, rid) => NeutralView(v, s, To(id, rid, RoomListResponse(Listing(r, o.rooms))));
      case JoinRoomRequest(id, rid, q) =>
        if id in r.sessions && r.sessions[id].loggedIn && q in r.rooms && r.sessions[id].roomId != q {
          StrangersHearNoJoins(r, id, rid, q, o, s, v);
        }
      case ChatSendRequest(id, _, content) => ChatView(r, id, content, o, s, v);
      case LeaveRoomRequest(id, rid) =>
        if id in r.sessions && r.sessions[id].roomId != NO_ROOM_ID {
          var leaving := LeaveNotices(r, r.sessions[id], o.here);
          StrangersHearNoNews(r, id, o.here, s, v);
          var a, b := To(id, rid, LeaveRoomResponse(true, NoError)),
              To(id, 0, SystemMessage(r.sessions[id].roomId, Departed));
          OneMore(v, s, leaving, a);
          OneMore(v, s, leaving + [a], b);
          assert Handle(r, e, o).sent == (leaving + [a]) + [b];
        }
      case DisconnectRequest(id, rid) =>
        var first := To(id, rid, DisconnectResponse(true, NoError));
        NeutralView(v, s, first);
        if id in r.sessions {
          StrangersHearNoNews(r, id, o.here, s, v);
          CoherentConcat(v, s, [first], LeaveNotices(r, r.sessions[id], o.here));
        } else {
          assert [first] + [] == [first];
        }
    }
  }

  // ----- Whole runs -----

  /** The view a client has at the end of a run: it starts afresh when its session is added. */
  ghost function Replay(size: Message -> nat, run: seq<Entry>, s: u32): ClientView {
    if run == [] then Nowhere
    else
      var init := run[..|run| - 1];
      if s !in RoomsAfter(init).sessions && s in RoomsAfter(run).sessions then Nowhere
      else Fold(Replay(size, init, s), s, LastSent(size, run))
  }

  lemma StepSifted(size: Message -> nat, run: seq<Entry>, s: u32, v: ClientView)
    requires run != [] && EncodingBounded(size)
    requires var before := RoomsAfter(run[..|run| - 1]); s in before.sessions ==> v == Truth(before, s)
    ensures Coherent(v, s, LastSent(size, run))
    ensures var before, after := RoomsAfter(run[..|run| - 1]), RoomsAfter(run);
            && (s in before.sessions && s in after.sessions ==> Fold(v, s, LastSent(size, run)) == Truth(after, s))
            && (s !in before.sessions && s in after.sessions ==> Truth(after, s) == Nowhere)
  {
    hide Handle, Truth, GoodOrder;
    var before, x := RoomsAfter(run[..|run| - 1]), run[|run| - 1];
    GameAlwaysOk(run[..|run| - 1]);
    if GoodOrder(before, x.event, x.order) {
      SentFits(size, before, x.event, x.order);
      SiftKeepsViews(size, v, s, Handle(before, x.event, x.order).sent);
      if s in before.sessions {
        StepView(before, x.event, x.order, s);
      } else {
        StrangerStep(before, x.event, x.order, s, v);
      }
    }
  }

  /**
   * View reconstruction: after every run, for every session the server knows, folding the messages sent to it since it
   * was added yields exactly its room and the user ids of that room's other members.
   */
  lemma {:induction false} ViewIsTruth(size: Message -> nat, run: seq<Entry>, s: u32)
    requires EncodingBounded(size) && s in RoomsAfter(run).sessions
    ensures Replay(size, run, s) == Truth(RoomsAfter(run), s)
  {
    if run != [] {
      var init := run[..|run| - 1];
      if s in RoomsAfter(init).sessions {
        ViewIsTruth(size, init, s);
      }
      StepSifted(size, run, s, Replay(size, init, s));
    }
  }

  /**
   * Isolation: at every point of every run, a chat broadcast reaches a client only for the room its view shows and from
   * itself or a user its view shows; joins and departures are announced only for that room, only of users who are
   * not yet there or still there; and a session's own joins and departures are never confirmed twice.
   */
  lemma EveryMessageIsSensible(size: Message -> nat, run: seq<Entry>, s: u32)
    requires EncodingBounded(size) && run != []
    ensures Coherent(Replay(size, run[..|run| - 1], s), s, LastSent(size, run))
  {
    var init := run[..|run| - 1];
    if s in RoomsAfter(init).sessions {
      ViewIsTruth(size, init, s);
    }
    StepSifted(size, run, s, Replay(size, init, s));
  }
}
