/** The event-driven game logic: handlers over the room tables, an outgoing message log and a disconnect list. */
module GameLogicSystems {
  import opened Bytes
  import opened ServerTypes
  import opened RoomSystems
  import opened Chat

  lemma {:induction false} SiftConcat(size: Message -> nat, a: seq<OutgoingMessage>, b: seq<OutgoingMessage>)
    ensures Sift(size, a + b) == Sift(size, a) + Sift(size, b)
  {
    if b == [] {
      assert a + b == a;
    } else {
      SiftConcat(size, a, b[..|b| - 1]);
      assert (a + b)[..|a + b| - 1] == a + b[..|b| - 1];
    }
  }

  /** Messages queued in three goes are those queued in one. */
  lemma SiftParts(size: Message -> nat, a: seq<OutgoingMessage>, b: seq<OutgoingMessage>, c: seq<OutgoingMessage>)
    ensures Sift(size, a + b + c) == Sift(size, a) + Sift(size, b) + Sift(size, c)
  {
    SiftConcat(size, a, b);
    SiftConcat(size, a + b, c);
  }

  /** Facts about the tables while somebody joins a room. */
  lemma JoinFacts(r: Rooms, id: u32, q: u32)
    requires id in r.sessions && q in r.rooms && Indexed(r)
    ensures r.sessions[id].roomId == NO_ROOM_ID ==> OutOfRoom(r, id) == r
    ensures r.sessions[id].roomId == NO_ROOM_ID ==> forall order :: LeaveNotices(r, r.sessions[id], order) == []
    ensures var out := OutOfRoom(r, id);
            var inside := InsideRoom(out, id, q);
            q in out.rooms && q in inside.rooms && id in inside.sessions && inside.sessions[id].sessionId == id
  {
  }

  lemma JoinOrder(r: Rooms, id: u32, q: u32, rid: u32, o: Order, there: seq<u32>)
    requires id in r.sessions && r.sessions[id].roomId != q && q in r.rooms
    requires GoodOrder(r, JoinRoomRequest(id, rid, q), o)
    requires Enumerates(there, MembersOf(OutOfRoom(r, id), q))
    ensures GoodOrder(r, JoinRoomRequest(id, rid, q), o.(there := there))
  {
    assert MembersOf(OutOfRoom(r, id), q) == MembersOf(r, q);
  }

  lemma JoinLog(size: Message -> nat, leaving: seq<OutgoingMessage>, answer: OutgoingMessage, notice: OutgoingMessage,
      told: seq<OutgoingMessage>)
    ensures Sift(size, leaving + [answer, notice] + told)
            == Sift(size, leaving) + Sift(size, [answer]) + Sift(size, [notice]) + Sift(size, told)
  {
    SiftParts(size, leaving, [answer], [notice]);
    SiftConcat(size, leaving + [answer] + [notice], told);
    assert leaving + [answer] + [notice] == leaving + [answer, notice];
  }

  lemma NobodyToTell(s: SessionState)
    ensures LeftEvents([], s.roomId, InfoOf(s)) == [] && forall r: Rooms :: MemberStates(r, [], Some(s.sessionId)) == []
  {
  }

  /** What the departure loop queues in its n-th round. */
  lemma NextDeparture(size: Message -> nat, ms: seq<SessionState>, n: nat, s: SessionState)
    requires 0 < n <= |ms|
    ensures Sift(size, LeftEvents(ms[..n], s.roomId, InfoOf(s)))
            == Sift(size, LeftEvents(ms[..n - 1], s.roomId, InfoOf(s)))
               + Sift(size, [To(ms[n - 1].sessionId, 0, UserLeftEvent(s.roomId, InfoOf(s)))])
  {
    hide Sift;
    assert ms[..n][..n - 1] == ms[..n - 1];
    SiftConcat(size, LeftEvents(ms[..n - 1], s.roomId, InfoOf(s)),
               [To(ms[n - 1].sessionId, 0, UserLeftEvent(s.roomId, InfoOf(s)))]);
  }

  /** What the broadcast loop queues in its n-th round. */
  lemma NextBroadcast(size: Message -> nat, ms: seq<SessionState>, n: nat, room: u32, me: SessionState, content: Bytes)
    requires 0 < n <= |ms|
    ensures Sift(size, Broadcasts(ms[..n], room, me, content))
            == Sift(size, Broadcasts(ms[..n - 1], room, me, content))
               + Sift(size, [To(ms[n - 1].sessionId, 0,
                   ChatBroadcast(room, me.userId, CStr(me.displayName), CStr(content)))])
  {
    hide Sift;
    assert ms[..n][..n - 1] == ms[..n - 1];
    SiftConcat(size, Broadcasts(ms[..n - 1], room, me, content),
               [To(ms[n - 1].sessionId, 0, ChatBroadcast(room, me.userId, CStr(me.displayName), CStr(content)))]);
  }

  /** What the newcomer loop queues in its n-th round. */
  lemma NextNewcomer(size: Message -> nat, ms: seq<SessionState>, n: nat, room: u32, me: SessionState)
    requires 0 < n <= |ms|
    ensures var other := ms[n - 1];
            Sift(size, JoinedEvents(ms[..n], room, me))
            == Sift(size, JoinedEvents(ms[..n - 1], room, me))
               + if !other.loggedIn then []
                 else Sift(size, [To(other.sessionId, 0, UserJoinedEvent(room, InfoOf(me)))])
                      + Sift(size, [To(me.sessionId, 0, UserJoinedEvent(room, InfoOf(other)))])
  {
    hide Sift;
    assert ms[..n][..n - 1] == ms[..n - 1];
    var before := JoinedEvents(ms[..n - 1], room, me);
    assert before + [] == before;
    if ms[n - 1].loggedIn {
      var a, b := To(ms[n - 1].sessionId, 0, UserJoinedEvent(room, InfoOf(me))),
          To(me.sessionId, 0, UserJoinedEvent(room, InfoOf(ms[n - 1])));
      SiftParts(size, before, [a], [b]);
      assert before + [a] + [b] == before + [a, b];
    }
  }

  lemma NoBroadcasts(room: u32, me: SessionState, content: Bytes)
    ensures Broadcasts([], room, me, content) == []
  {
  }

  lemma Nothing(size: Message -> nat)
    ensures Sift(size, []) == []
    ensures forall room, me :: JoinedEvents([], room, me) == []
  {
  }

  lemma OneMoreEntry(size: Message -> nat, run: seq<Entry>, x: Entry)
    requires GoodOrder(RoomsAfter(run), x.event, x.order)
    ensures var done := Handle(RoomsAfter(run), x.event, x.order);
            && RoomsAfter(run + [x]) == done.rooms
            && LastSent(size, run + [x]) == Sift(size, done.sent)
            && Log(size, run + [x]) == Log(size, run) + Sift(size, done.sent)
            && Cuts(run + [x]) == Cuts(run) + done.cut
  {
    hide Handle, GoodOrder, Sift;
    assert (run + [x])[..|run|] == run;
  }

  lemma Reordered(r: Rooms, e: Event, o: Order, here: seq<u32>)
    requires GoodOrder(r, e, o) && Enumerates(here, MembersOf(r, RoomOf(r, e.sessionId)))
    ensures GoodOrder(r, e, o.(here := here))
  {
  }

  /** Every finite set can be iterated in some order. */
  lemma AnyOrder(s: set<u32>) returns (order: seq<u32>)
    ensures Enumerates(order, s)
    decreases |s|
  {
    if s == {} {
      order := [];
    } else {
      var x :| x in s;
      var rest := AnyOrder(s - {x});
      order := rest + [x];
    }
  }

  class GameLogicSystem {
    const roomSystem: RoomSystem
    const size: Message -> nat
    var outgoingMessages: seq<OutgoingMessage>
    var pendingDisconnects: seq<u32>

    // every event handled so far, with the iteration orders met, and the messages and disconnects already taken
    ghost var history: seq<Entry>
    ghost var taken: seq<OutgoingMessage>
    ghost var cut: seq<u32>

    /** The state is the one the run theorems speak about. */
    ghost predicate Valid()
      reads this, roomSystem
    {
      && roomSystem.View() == RoomsAfter(history)
      && taken + outgoingMessages == Log(size, history)
      && cut + pendingDisconnects == Cuts(history)
    }

    constructor (roomSystem: RoomSystem, size: Message -> nat)
      requires roomSystem.View() == InitialRooms
      ensures Valid() && history == [] && outgoingMessages == [] && pendingDisconnects == []
      ensures this.roomSystem == roomSystem && this.size == size
    {
      this.roomSystem := roomSystem;
      this.size := size;
      outgoingMessages := [];
      pendingDisconnects := [];
      history := [];
      taken := [];
      cut := [];
    }

    /** The fields, starting from `sent0` and `cut0`, are as the outcome says. */
    ghost predicate Did(sent0: seq<OutgoingMessage>, cut0: seq<u32>, done: Outcome)
      reads this, roomSystem
    {
      && roomSystem.View() == done.rooms
      && outgoingMessages == sent0 + Sift(size, done.sent)
      && pendingDisconnects == cut0 + done.cut
    }

    method Update(events: seq<Event>)
      requires Valid()
      modifies this, roomSystem
      ensures Valid()
      ensures |history| == |old(history)| + |events| && old(history) <= history
      ensures forall i :: 0 <= i < |events| ==>
                && history[|old(history)| + i].event == events[i]
                && GoodOrder(RoomsAfter(history[..|old(history)| + i]), events[i], history[|old(history)| + i].order)
      ensures taken == old(taken) && cut == old(cut)
    {
      hide GoodOrder, RoomsAfter, Log, Cuts, LastSent;
      var n := 0;
      while n < |events|
        invariant 0 <= n <= |events|
        invariant Valid() && taken == old(taken) && cut == old(cut)
        invariant |history| == |old(history)| + n && old(history) <= history
        invariant forall i :: 0 <= i < n ==>
                    && history[|old(history)| + i].event == events[i]
                    && GoodOrder(RoomsAfter(history[..|old(history)| + i]), events[i],
                        history[|old(history)| + i].order)
      {
        ghost var before := history;
        Visit(events[n]);
        assert forall k :: 0 <= k <= |before| ==> history[..k] == before[..k];
        n := n + 1;
      }
    }

    method Visit(e: Event)
      requires Valid()
      modifies this, roomSystem
      ensures Valid()
      ensures |history| == |old(history)| + 1 && history[..|old(history)|] == old(history)
      ensures history[|old(history)|].event == e
              && GoodOrder(RoomsAfter(old(history)), e, history[|old(history)|].order)
      ensures outgoingMessages == old(outgoingMessages) + LastSent(size, history)
      ensures taken == old(taken) && cut == old(cut)
    {
      hide GoodOrder, RoomsAfter, Log, Cuts, LastSent, Sift;
      hide Indexed, FixedRooms, NamesOk, WithSession, OnDisconnected, OnLogin, OnJoin, OnChat, OnLeave,
           OnDisconnectRequest;
      GameAlwaysOk(history);
      ghost var o;
      match e {
        case SessionConnected(id) => o := HandleSessionConnected(id);
        case SessionDisconnected(id) => o := HandleSessionDisconnected(id);
        case InvalidPacket(id, text) => o := HandleInvalidPacket(id, text);
        case LoginRequest(id, rid, name) => o := HandleLoginRequest(id, rid, name);
        case RoomListRequest(id, rid) => o := HandleRoomListRequest(id, rid);
        case JoinRoomRequest(id, rid, q) => o := HandleJoinRoomRequest(id, rid, q);
        case ChatSendRequest(id, rid, content) => o := HandleChatSendRequest(id, rid, content);
        case LeaveRoomRequest(id, rid) => o := HandleLeaveRoomRequest(id, rid);
        case DisconnectRequest(id, rid) => o := HandleDisconnectRequest(id, rid);
      }
      OneMoreEntry(size, history, Entry(e, o));
      history := history + [Entry(e, o)];
    }

    method TakeOutgoingMessages() returns (messages: seq<OutgoingMessage>)
      requires Valid()
      modifies this
      ensures messages == old(outgoingMessages) && outgoingMessages == []
      ensures Valid() && history == old(history) && taken == old(taken) + messages
      ensures pendingDisconnects == old(pendingDisconnects) && cut == old(cut)
    {
      messages := outgoingMessages;
      taken := taken + outgoingMessages;
      outgoingMessages := [];
    }

    method TakePendingDisconnects() returns (ids: seq<u32>)
      requires Valid()
      modifies this
      ensures ids == old(pendingDisconnects) && pendingDisconnects == []
      ensures Valid() && history == old(history) && cut == old(cut) + ids
      ensures outgoingMessages == old(outgoingMessages) && taken == old(taken)
    {
      ids := pendingDisconnects;
      cut := cut + pendingDisconnects;
      pendingDisconnects := [];
    }

    /** An order for a handler that iterated the session's room in order `here`. */
    ghost method OrderWith(r: Rooms, e: Event, here: seq<u32>) returns (o: Order)
      requires Enumerates(here, MembersOf(r, RoomOf(r, e.sessionId)))
      ensures GoodOrder(r, e, o) && o.here == here
    {
      var there := AnyOrder(if e.JoinRoomRequest? then MembersOf(r, e.roomId) else {});
      var listing := AnyOrder(r.rooms.Keys);
      o := Order(here, there, listing);
    }

    ghost method SomeOrder(r: Rooms, e: Event) returns (o: Order)
      ensures GoodOrder(r, e, o)
    {
      var here := AnyOrder(MembersOf(r, RoomOf(r, e.sessionId)));
      o := OrderWith(r, e, here);
    }

    method HandleSessionConnected(id: u32) returns (ghost o: Order)
      modifies this`outgoingMessages, this`pendingDisconnects, roomSystem
      ensures GoodOrder(old(roomSystem.View()), SessionConnected(id), o)
      ensures Did(old(outgoingMessages), old(pendingDisconnects),
              Outcome(WithSession(old(roomSystem.View()), id), [], []))
    {
      o := SomeOrder(roomSystem.View(), SessionConnected(id));
      roomSystem.AddSession(id);
    }

    method HandleSessionDisconnected(id: u32) returns (ghost o: Order)
      modifies this`outgoingMessages, this`pendingDisconnects, roomSystem
      ensures GoodOrder(old(roomSystem.View()), SessionDisconnected(id), o)
      ensures Did(old(outgoingMessages), old(pendingDisconnects), OnDisconnected(old(roomSystem.View()), id, o))
    {
      ghost var e := SessionDisconnected(id);
      var session := roomSystem.FindSession(id);
      if session.Some? {
        ghost var here := NotifyRoomLeave(session.value);
        o := OrderWith(roomSystem.View(), e, here);
      } else {
        o := SomeOrder(roomSystem.View(), e);
      }
      roomSystem.RemoveSession(id);
    }

    method HandleInvalidPacket(id: u32, text: Bytes) returns (ghost o: Order)
      modifies this`outgoingMessages, this`pendingDisconnects
      ensures GoodOrder(old(roomSystem.View()), InvalidPacket(id, text), o)
      ensures Did(old(outgoingMessages), old(pendingDisconnects),
              Outcome(old(roomSystem.View()), [To(id, 0, SystemMessage(0, Rejected(CStr(text))))], []))
    {
      o := SomeOrder(roomSystem.View(), InvalidPacket(id, text));
      QueueMessage(id, 0, SystemMessage(0, Rejected(CStr(text))));
    }

    method HandleLoginRequest(id: u32, rid: u32, name: Bytes) returns (ghost o: Order)
      modifies this`outgoingMessages, this`pendingDisconnects, roomSystem
      ensures GoodOrder(old(roomSystem.View()), LoginRequest(id, rid, name), o)
      ensures Did(old(outgoingMessages), old(pendingDisconnects), OnLogin(old(roomSystem.View()), id, rid, name))
    {
      o := SomeOrder(roomSystem.View(), LoginRequest(id, rid, name));
      var session := roomSystem.FindSession(id);
      if session.None? {
        return;
      }
      if name == [] {
        QueueMessage(id, rid, LoginResponse(false, InvalidName, None));
        return;
      }
      if |name| > MAX_DISPLAY_NAME_BYTES {
        QueueMessage(id, rid, LoginResponse(false, InvalidName, None));
        return;
      }
      var taken := roomSystem.IsDisplayNameTaken(name, id);
      if taken {
        QueueMessage(id, rid, LoginResponse(false, DuplicateName, None));
        return;
      }
      roomSystem.SetLoggedIn(id, name);
      session := roomSystem.FindSession(id);
      QueueMessage(id, rid, LoginResponse(true, NoError, Some(InfoOf(session.value))));
    }

    method HandleRoomListRequest(id: u32, rid: u32) returns (ghost o: Order)
      modifies this`outgoingMessages, this`pendingDisconnects
      ensures GoodOrder(old(roomSystem.View()), RoomListRequest(id, rid), o)
      ensures Did(old(outgoingMessages), old(pendingDisconnects),
              Outcome(old(roomSystem.View()),
              [To(id, rid, RoomListResponse(Listing(old(roomSystem.View()), o.rooms)))], []))
    {
      var infos, todo := [], roomSystem.rooms.Keys;
      ghost var order := [];
      while todo != {}
        invariant todo <= roomSystem.rooms.Keys
        invariant Enumerates(order, roomSystem.rooms.Keys - todo)
        invariant infos == Listing(roomSystem.View(), order)
        decreases |todo|
      {
        var q :| q in todo;
        todo := todo - {q};
        assert (order + [q])[..|order|] == order;
        order := order + [q];
        infos := infos + [RoomInfoOf(roomSystem.rooms[q])];
      }
      o := SomeOrder(roomSystem.View(), RoomListRequest(id, rid));
      o := o.(rooms := order);
      QueueMessage(id, rid, RoomListResponse(infos));
    }

    method HandleJoinRoomRequest(id: u32, rid: u32, q: u32) returns (ghost o: Order)
      requires Indexed(roomSystem.View())
      modifies this`outgoingMessages, this`pendingDisconnects, roomSystem
      ensures GoodOrder(old(roomSystem.View()), JoinRoomRequest(id, rid, q), o)
      ensures Did(old(outgoingMessages), old(pendingDisconnects), OnJoin(old(roomSystem.View()), id, rid, q, o))
    {
      hide LeaveNotices, JoinedEvents, Indexed, Enumerates, GoodOrder, Sift, OutOfRoom, InsideRoom, MemberStates,
           StatesOf, Found;
      ghost var r, e := roomSystem.View(), JoinRoomRequest(id, rid, q);
      Nothing(size);
      o := SomeOrder(r, e);
      var session, room := roomSystem.FindSession(id), roomSystem.FindRoom(q);
      if session.None? {
        return;
      }
      if !session.value.loggedIn {
        QueueMessage(id, rid, JoinRoomResponse(false, InvalidName, None));
        return;
      }
      if room.None? {
        QueueMessage(id, rid, JoinRoomResponse(false, RoomNotFound, None));
        return;
      }
      if session.value.roomId == q {
        QueueMessage(id, rid, JoinRoomResponse(false, AlreadyInRoom, None));
        return;
      }
      JoinFacts(r, id, q);
      if session.value.roomId != NO_ROOM_ID {
        ghost var here := NotifyRoomLeave(session.value);
        Reordered(r, e, o, here);
        o := o.(here := here);
        roomSystem.RemoveSessionFromCurrentRoom(id);
      }
      ghost var leaving, out := LeaveNotices(r, r.sessions[id], o.here), roomSystem.View();
      assert outgoingMessages == old(outgoingMessages) + Sift(size, leaving);
      var existing, there := roomSystem.GetRoomMembers(q, None);
      JoinOrder(r, id, q, rid, o, there);
      o := o.(there := there);
      roomSystem.MoveSessionToRoom(id, q);
      session := roomSystem.FindSession(id);
      room := roomSystem.FindRoom(q);
      ghost var inside := roomSystem.View();

      QueueMessage(id, rid, JoinRoomResponse(true, NoError, Some(RoomInfoOf(room.value))));
      QueueMessage(id, 0, SystemMessage(room.value.roomId, Entered(CStr(room.value.roomName))));
      IntroduceNewcomer(existing, room.value.roomId, session.value);
      JoinLog(size, leaving,
              To(id, rid, JoinRoomResponse(true, NoError, Some(RoomInfoOf(room.value)))),
              To(id, 0, SystemMessage(room.value.roomId, Entered(CStr(room.value.roomName)))),
              JoinedEvents(existing, room.value.roomId, session.value));
    }

    /** The loop at the end of the join handler. */
    method IntroduceNewcomer(existing: seq<SessionState>, room: u32, me: SessionState)
      modifies this`outgoingMessages
      ensures outgoingMessages == old(outgoingMessages) + Sift(size, JoinedEvents(existing, room, me))
    {
      hide JoinedEvents, Sift;
      Nothing(size);
      var n := 0;
      while n < |existing|
        invariant 0 <= n <= |existing|
        invariant outgoingMessages == old(outgoingMessages) + Sift(size, JoinedEvents(existing[..n], room, me))
      {
        var other := existing[n];
        n := n + 1;
        NextNewcomer(size, existing, n, room, me);
        if !other.loggedIn {
          continue;
        }
        QueueMessage(other.sessionId, 0, UserJoinedEvent(room, InfoOf(me)));
        QueueMessage(me.sessionId, 0, UserJoinedEvent(room, InfoOf(other)));
      }
      assert existing[..n] == existing;
    }

    method HandleChatSendRequest(id: u32, rid: u32, content: Bytes) returns (ghost o: Order)
      modifies this`outgoingMessages, this`pendingDisconnects
      ensures GoodOrder(old(roomSystem.View()), ChatSendRequest(id, rid, content), o)
      ensures Did(old(outgoingMessages), old(pendingDisconnects), OnChat(old(roomSystem.View()), id, content, o))
    {
      hide Broadcasts, Enumerates, GoodOrder, Sift, MemberStates, StatesOf, Found;
      ghost var r, e := roomSystem.View(), ChatSendRequest(id, rid, content);
      Nothing(size);
      o := SomeOrder(r, e);
      var session := roomSystem.FindSession(id);
      if session.None? || !session.value.loggedIn {
        return;
      }
      var me := session.value;
      if me.roomId == NO_ROOM_ID {
        QueueMessage(id, 0, SystemMessage(0, JoinFirst));
        return;
      }
      if content == [] {
        QueueMessage(id, 0, SystemMessage(me.roomId, EmptyChat));
        return;
      }
      if |content| > MAX_CHAT_MESSAGE_BYTES {
        QueueMessage(id, 0, SystemMessage(me.roomId, ChatTooLong));
        return;
      }
      var members, here := roomSystem.GetRoomMembers(me.roomId, None);
      if me.roomId in r.rooms {
        Reordered(r, e, o, here);
        o := o.(here := here);
      }
      NoBroadcasts(me.roomId, me, content);
      var n := 0;
      while n < |members|
        invariant 0 <= n <= |members|
        invariant outgoingMessages
                  == old(outgoingMessages) + Sift(size, Broadcasts(members[..n], me.roomId, me, content))
        invariant pendingDisconnects == old(pendingDisconnects)
      {
        NextBroadcast(size, members, n + 1, me.roomId, me, content);
        QueueMessage(members[n].sessionId, 0, ChatBroadcast(me.roomId, me.userId, CStr(me.displayName), CStr(content)));
        n := n + 1;
      }
      assert members[..n] == members;
    }

    method HandleLeaveRoomRequest(id: u32, rid: u32) returns (ghost o: Order)
      modifies this`outgoingMessages, this`pendingDisconnects, roomSystem
      ensures GoodOrder(old(roomSystem.View()), LeaveRoomRequest(id, rid), o)
      ensures Did(old(outgoingMessages), old(pendingDisconnects), OnLeave(old(roomSystem.View()), id, rid, o))
    {
      hide LeaveNotices, Enumerates, GoodOrder, Sift, OutOfRoom;
      ghost var r, e := roomSystem.View(), LeaveRoomRequest(id, rid);
      Nothing(size);
      o := SomeOrder(r, e);
      var session := roomSystem.FindSession(id);
      if session.None? {
        return;
      }
      if session.value.roomId == NO_ROOM_ID {
        QueueMessage(id, rid, LeaveRoomResponse(false, NotInRoom));
        return;
      }
      var roomId := session.value.roomId;
      ghost var here := NotifyRoomLeave(session.value);
      Reordered(r, e, o, here);
      o := o.(here := here);
      roomSystem.RemoveSessionFromCurrentRoom(id);
      QueueMessage(id, rid, LeaveRoomResponse(true, NoError));
      QueueMessage(id, 0, SystemMessage(roomId, Departed));
      ghost var notices := LeaveNotices(r, r.sessions[id], here);
      ghost var answer, notice := To(id, rid, LeaveRoomResponse(true, NoError)),
          To(id, 0, SystemMessage(roomId, Departed));
      SiftParts(size, notices, [answer], [notice]);
      assert notices + [answer] + [notice] == notices + [answer, notice];
    }

    method HandleDisconnectRequest(id: u32, rid: u32) returns (ghost o: Order)
      modifies this`outgoingMessages, this`pendingDisconnects, roomSystem
      ensures GoodOrder(old(roomSystem.View()), DisconnectRequest(id, rid), o)
      ensures Did(old(outgoingMessages), old(pendingDisconnects),
              OnDisconnectRequest(old(roomSystem.View()), id, rid, o))
    {
      hide LeaveNotices, Enumerates, GoodOrder, Sift, WithoutSession;
      ghost var r, e := roomSystem.View(), DisconnectRequest(id, rid);
      o := SomeOrder(r, e);
      QueueMessage(id, rid, DisconnectResponse(true, NoError));
      var session := roomSystem.FindSession(id);
      if session.Some? {
        ghost var here := NotifyRoomLeave(session.value);
        Reordered(r, e, o, here);
        o := o.(here := here);
        SiftConcat(size, [To(id, rid, DisconnectResponse(true, NoError))], LeaveNotices(r, r.sessions[id], here));
      } else {
        assert [To(id, rid, DisconnectResponse(true, NoError))] + []
               == [To(id, rid, DisconnectResponse(true, NoError))];
      }
      roomSystem.RemoveSession(id);
      pendingDisconnects := pendingDisconnects + [id];
    }

    /** `here` is the order in which the members of the session's room were iterated, or could have been. */
    method NotifyRoomLeave(s: SessionState) returns (ghost here: seq<u32>)
      modifies this`outgoingMessages
      ensures Enumerates(here, MembersOf(roomSystem.View(), s.roomId))
      ensures outgoingMessages == old(outgoingMessages) + Sift(size, LeaveNotices(roomSystem.View(), s, here))
    {
      hide LeftEvents, Enumerates, Sift, MemberStates, StatesOf, Found;
      Nothing(size);
      NobodyToTell(s);
      here := AnyOrder(MembersOf(roomSystem.View(), s.roomId));
      if s.roomId == NO_ROOM_ID || !s.loggedIn {
        return;
      }
      var remaining, order := roomSystem.GetRoomMembers(s.roomId, Some(s.sessionId));
      here := if s.roomId in roomSystem.rooms then order else here;
      var n := 0;
      while n < |remaining|
        invariant 0 <= n <= |remaining|
        invariant outgoingMessages
                  == old(outgoingMessages) + Sift(size, LeftEvents(remaining[..n], s.roomId, InfoOf(s)))
      {
        NextDeparture(size, remaining, n + 1, s);
        QueueMessage(remaining[n].sessionId, 0, UserLeftEvent(s.roomId, InfoOf(s)));
        n := n + 1;
      }
      assert remaining[..n] == remaining;
    }

    method QueueMessage(id: u32, requestId: u32, p: Payload)
      modifies this`outgoingMessages
      ensures outgoingMessages == old(outgoingMessages) + Sift(size, [To(id, requestId, p)])
    {
      var m := Message(requestId, p);
      if size(m) == 0 || size(m) > MAX_PROTOCOL_PAYLOAD_BYTES {
        return;
      }
      outgoingMessages := outgoingMessages + [OutgoingMessage(id, m)];
    }
  }
}
