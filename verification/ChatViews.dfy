/** What a client can rebuild from its messages: the room it is in and who else is there. */
module ChatViews {
  import opened Bytes
  import opened ServerTypes
  import opened RoomSystems
  import opened Chat

  datatype ClientView = ClientView(room: u32, others: set<u32>)

  const Nowhere := ClientView(NO_ROOM_ID, {})

  /** How a client updates its view; users are known by their ids, since a second login renames a user silently. */
  function Show(v: ClientView, p: Payload): ClientView {
    match p
    case JoinRoomResponse(success, _, room) => if success && room.Some? then ClientView(room.value.roomId, {}) else v
    case LeaveRoomResponse(success, _) => if success then Nowhere else v
    case UserJoinedEvent(_, user) => v.(others := v.others + {user.userId})
    case UserLeftEvent(_, user) => v.(others := v.others - {user.userId})
    case _ => v
  }

  /** The view of session `s` after the messages addressed to it. */
  function Fold(v: ClientView, s: u32, ms: seq<OutgoingMessage>): ClientView {
    if ms == [] then v
    else
      var before, last := Fold(v, s, ms[..|ms| - 1]), ms[|ms| - 1];
      if last.sessionId == s then Show(before, last.message.payload) else before
  }

  lemma {:induction false} FoldConcat(v: ClientView, s: u32, a: seq<OutgoingMessage>, b: seq<OutgoingMessage>)
    ensures Fold(v, s, a + b) == Fold(Fold(v, s, a), s, b)
  {
    if b == [] {
      assert a + b == a;
    } else {
      FoldConcat(v, s, a, b[..|b| - 1]);
      assert (a + b)[..|a + b| - 1] == a + b[..|b| - 1];
    }
  }

  /**
   * A message makes sense to a client with view `v`: it is about the client's room, and adds or removes what can be.
   */
  predicate Sensible(v: ClientView, s: u32, p: Payload) {
    match p
    case ChatBroadcast(room, sender, _, _) => room == v.room && (sender == s || sender in v.others)
    case UserJoinedEvent(room, user) => room == v.room && user.userId != s && user.userId !in v.others
    case UserLeftEvent(room, user) => room == v.room && user.userId in v.others
    case JoinRoomResponse(success, _, room) =>
      success ==> room.Some? && room.value.roomId != v.room && room.value.roomId != NO_ROOM_ID
    case LeaveRoomResponse(success, _) => success ==> v.room != NO_ROOM_ID
    case _ => true
  }

  /** Every message of the stream to `s` is sensible at the point where it arrives. */
  predicate Coherent(v: ClientView, s: u32, ms: seq<OutgoingMessage>) {
    ms == [] ||
    var init, last := ms[..|ms| - 1], ms[|ms| - 1];
    Coherent(v, s, init) && (last.sessionId == s ==> Sensible(Fold(v, s, init), s, last.message.payload))
  }

  /** One message more. */
  lemma OneMore(v: ClientView, s: u32, ms: seq<OutgoingMessage>, o: OutgoingMessage)
    ensures Fold(v, s, ms + [o]) == if o.sessionId == s then Show(Fold(v, s, ms), o.message.payload) else Fold(v, s, ms)
    ensures Coherent(v, s, ms + [o])
            <==> Coherent(v, s, ms) && (o.sessionId == s ==> Sensible(Fold(v, s, ms), s, o.message.payload))
  {
    assert (ms + [o])[..|ms|] == ms;
  }

  lemma {:induction false} CoherentConcat(v: ClientView, s: u32, a: seq<OutgoingMessage>, b: seq<OutgoingMessage>)
    requires Coherent(v, s, a) && Coherent(Fold(v, s, a), s, b)
    ensures Coherent(v, s, a + b)
  {
    if b == [] {
      assert a + b == a;
    } else {
      var init := b[..|b| - 1];
      CoherentConcat(v, s, a, init);
      FoldConcat(v, s, a, init);
      assert (a + b)[..|a + b| - 1] == a + init;
    }
  }

  // ----- Nothing that matters is dropped -----

  const MAX_ROOM_NAME_BYTES := 5
  const ROOM_COUNT := 3

  /** A string as c_str() leaves it. */
  predicate Text(s: Bytes, max: nat) {
    |s| <= max && 0 !in s
  }

  /**
   * What every message built by the server satisfies: no NUL in its strings, names and chat texts of accepted lengths,
   * at most the three rooms with their names.
   */
  predicate Buildable(m: Message) {
    match m.payload
    case LoginResponse(_, _, account) => account.Some? ==> Text(account.value.displayName, MAX_DISPLAY_NAME_BYTES)
    case RoomListResponse(rooms) =>
      |rooms| <= ROOM_COUNT && forall i :: 0 <= i < |rooms| ==> Text(rooms[i].roomName, MAX_ROOM_NAME_BYTES)
    case JoinRoomResponse(_, _, room) => room.Some? ==> Text(room.value.roomName, MAX_ROOM_NAME_BYTES)
    case ChatBroadcast(_, _, name, content) =>
      Text(name, MAX_DISPLAY_NAME_BYTES) && Text(content, MAX_CHAT_MESSAGE_BYTES)
    case UserJoinedEvent(_, user) => Text(user.displayName, MAX_DISPLAY_NAME_BYTES)
    case UserLeftEvent(_, user) => Text(user.displayName, MAX_DISPLAY_NAME_BYTES)
    case SystemMessage(_, notice) =>
      && (notice.Entered? ==> Text(notice.roomName, MAX_ROOM_NAME_BYTES))
      && (notice.Rejected? ==> 0 !in notice.message)
    case _ => true
  }

  /** The bytes of the strings in a message that come from the server's state or from outside. */
  function StringBytes(p: Payload): nat {
    match p
    case LoginResponse(_, _, account) => if account.Some? then |account.value.displayName| else 0
    case RoomListResponse(rooms) => NameBytes(rooms)
    case JoinRoomResponse(_, _, room) => if room.Some? then |room.value.roomName| else 0
    case ChatBroadcast(_, _, name, content) => |name| + |content|
    case UserJoinedEvent(_, user) => |user.displayName|
    case UserLeftEvent(_, user) => |user.displayName|
    case SystemMessage(_, notice) =>
      (match notice case Rejected(message) => |message| case Entered(roomName) => |roomName| case _ => 0)
    case _ => 0
  }

  function NameBytes(rooms: seq<RoomInfo>): nat {
    if rooms == [] then 0 else NameBytes(rooms[..|rooms| - 1]) + |rooms[|rooms| - 1].roomName|
  }

  lemma {:induction false} NameBytesBounded(rooms: seq<RoomInfo>)
    requires forall i :: 0 <= i < |rooms| ==> |rooms[i].roomName| <= MAX_ROOM_NAME_BYTES
    ensures NameBytes(rooms) <= MAX_ROOM_NAME_BYTES * |rooms|
  {
    if rooms != [] {
      NameBytesBounded(rooms[..|rooms| - 1]);
    }
  }

  const ENCODING_OVERHEAD := 1024

  /**
   * The one assumption on sizes: the encoding of a message the server can build is not empty, and bounded by a constant
   * plus its string bytes.
   */
  ghost predicate EncodingBounded(size: Message -> nat) {
    forall m :: Buildable(m) ==> 0 < size(m) <= ENCODING_OVERHEAD + StringBytes(m.payload)
  }

  /** Only system messages can be too large to send. */
  ghost predicate FitsUnlessNotice(size: Message -> nat, ms: seq<OutgoingMessage>) {
    forall o :: o in ms ==> Fits(size, o.message) || o.message.payload.SystemMessage?
  }

  lemma {:induction false} SiftKeepsViews(size: Message -> nat, v: ClientView, s: u32, ms: seq<OutgoingMessage>)
    requires FitsUnlessNotice(size, ms)
    ensures Fold(v, s, Sift(size, ms)) == Fold(v, s, ms)
    ensures Coherent(v, s, ms) ==> Coherent(v, s, Sift(size, ms))
  {
    if ms != [] {
      var init, last := ms[..|ms| - 1], ms[|ms| - 1];
      SiftKeepsViews(size, v, s, init);
      if Fits(size, last.message) {
        assert (Sift(size, init) + [last])[..|Sift(size, init)|] == Sift(size, init);
      } else {
        assert last in ms;
        assert Sift(size, init) + [] == Sift(size, init);
      }
    }
  }

  lemma {:induction false} ListingIsShort(r: Rooms, order: seq<u32>)
    requires FixedRooms(r)
    ensures |Listing(r, order)| <= |order|
    ensures forall i :: 0 <= i < |Listing(r, order)| ==> Text(Listing(r, order)[i].roomName, MAX_ROOM_NAME_BYTES)
  {
    if order != [] {
      var q := order[|order| - 1];
      ListingIsShort(r, order[..|order| - 1]);
      if q in r.rooms {
        CStrShortens(r.rooms[q].roomName);
      }
    }
  }

  lemma {:induction false} EnumerationLength(order: seq<u32>, s: set<u32>)
    requires Enumerates(order, s)
    ensures |order| == |s|
    decreases |order|
  {
    if order != [] {
      var init, x := order[..|order| - 1], order[|order| - 1];
      assert order == init + [x];
      assert Enumerates(init, s - {x});
      EnumerationLength(init, s - {x});
    }
  }

  ghost predicate AllBuildable(ms: seq<OutgoingMessage>) {
    forall o :: o in ms ==> Buildable(o.message)
  }

  lemma {:induction false} FanOutIsBuildable(ms: seq<SessionState>, room: u32, me: SessionState, content: Bytes)
    requires |me.displayName| <= MAX_DISPLAY_NAME_BYTES && |content| <= MAX_CHAT_MESSAGE_BYTES
    requires forall m :: m in ms && m.loggedIn ==> |m.displayName| <= MAX_DISPLAY_NAME_BYTES
    ensures AllBuildable(LeftEvents(ms, room, InfoOf(me))) && AllBuildable(JoinedEvents(ms, room, me))
    ensures AllBuildable(Broadcasts(ms, room, me, content))
  {
    if ms != [] {
      FanOutIsBuildable(ms[..|ms| - 1], room, me, content);
      CStrShortens(me.displayName);
      CStrShortens(content);
      CStrShortens(ms[|ms| - 1].displayName);
      assert ms[|ms| - 1] in ms;
    }
  }

  lemma {:induction false} MemberNamesAreShort(r: Rooms, order: seq<u32>, exclude: Option<u32>)
    requires NamesOk(r)
    ensures forall m :: m in MemberStates(r, order, exclude) && m.loggedIn ==> |m.displayName| <= MAX_DISPLAY_NAME_BYTES
  {
    if order != [] {
      MemberNamesAreShort(r, order[..|order| - 1], exclude);
    }
  }

  lemma LeaveNoticesAreBuildable(r: Rooms, id: u32, order: seq<u32>)
    requires NamesOk(r) && id in r.sessions
    ensures AllBuildable(LeaveNotices(r, r.sessions[id], order))
  {
    var s := r.sessions[id];
    var order' := if s.roomId in r.rooms then order else [];
    MemberNamesAreShort(r, order', Some(s.sessionId));
    if s.loggedIn {
      FanOutIsBuildable(MemberStates(r, order', Some(s.sessionId)), s.roomId, s, []);
    }
  }

  lemma RoomNamesAreShort(r: Rooms, q: u32)
    requires FixedRooms(r) && q in r.rooms
    ensures Text(CStr(r.rooms[q].roomName), MAX_ROOM_NAME_BYTES)
  {
    CStrShortens(r.rooms[q].roomName);
  }

  /** What a successful join sends: notices to the old room, the response, a system message, and the introductions. */
  lemma JoinSends(r: Rooms, id: u32, rid: u32, q: u32, o: Order)
    requires id in r.sessions && r.sessions[id].loggedIn && q in r.rooms && r.sessions[id].roomId != q
    ensures var room := InsideRoom(OutOfRoom(r, id), id, q).rooms[q];
            && OnJoin(r, id, rid, q, o).sent
               == LeaveNotices(r, r.sessions[id], o.here)
                  + [To(id, rid, JoinRoomResponse(true, NoError, Some(RoomInfoOf(room)))),
                     To(id, 0, SystemMessage(room.roomId, Entered(CStr(room.roomName))))]
                  + JoinedEvents(MemberStates(OutOfRoom(r, id), o.there, None), room.roomId,
                      r.sessions[id].(roomId := q))
            && room.roomName == r.rooms[q].roomName && room.roomId == r.rooms[q].roomId
            && OnJoin(r, id, rid, q, o).rooms == InsideRoom(OutOfRoom(r, id), id, q)
  {
  }

  lemma JoinIsBuildable(r: Rooms, id: u32, rid: u32, q: u32, o: Order)
    requires NamesOk(r) && FixedRooms(r)
    requires id in r.sessions && r.sessions[id].loggedIn && q in r.rooms && r.sessions[id].roomId != q
    ensures AllBuildable(OnJoin(r, id, rid, q, o).sent)
  {
    hide OnJoin, LeaveNotices, FixedRooms;
    JoinSends(r, id, rid, q, o);
    LeaveNoticesAreBuildable(r, id, o.here);
    NamesKeptByLeaving(r, id);
    MemberNamesAreShort(OutOfRoom(r, id), o.there, None);
    FanOutIsBuildable(MemberStates(OutOfRoom(r, id), o.there, None), r.rooms[q].roomId, r.sessions[id].(roomId := q),
        []);
    RoomNamesAreShort(r, q);
  }

  lemma ListIsBuildable(r: Rooms, rid: u32, o: Order)
    requires FixedRooms(r) && Enumerates(o.rooms, r.rooms.Keys)
    ensures Buildable(Message(rid, RoomListResponse(Listing(r, o.rooms))))
  {
    ListingIsShort(r, o.rooms);
    EnumerationLength(o.rooms, r.rooms.Keys);
    assert r.rooms.Keys == {1001, 1002, 1003};
  }

  lemma ChatIsBuildable(r: Rooms, id: u32, content: Bytes, o: Order)
    requires NamesOk(r)
    ensures AllBuildable(OnChat(r, id, content, o).sent)
  {
    if id in r.sessions && r.sessions[id].loggedIn && |content| <= MAX_CHAT_MESSAGE_BYTES {
      var s := r.sessions[id];
      var order := if s.roomId in r.rooms then o.here else [];
      MemberNamesAreShort(r, order, None);
      FanOutIsBuildable(MemberStates(r, order, None), s.roomId, s, content);
    }
  }

  lemma SentIsBuildable(r: Rooms, e: Event, o: Order)
    requires NamesOk(r) && FixedRooms(r) && GoodOrder(r, e, o)
    ensures AllBuildable(Handle(r, e, o).sent)
  {
    hide NamesOk, FixedRooms, LeaveNotices, OnChat, Enumerates;
    match e {
      case LoginRequest(id, rid, name) => CStrShortens(name);
      case InvalidPacket(_, text) => CStrShortens(text);
      case RoomListRequest(_, _) => ListIsBuildable(r, e.requestId, o);
      case JoinRoomRequest(id, rid, q) =>
        if id in r.sessions && r.sessions[id].loggedIn && q in r.rooms && r.sessions[id].roomId != q {
          JoinIsBuildable(r, id, rid, q, o);
        }
      case ChatSendRequest(id, _, content) => ChatIsBuildable(r, id, content, o);
      case SessionConnected(_) =>
      case _ =>
        if e.sessionId in r.sessions {
          LeaveNoticesAreBuildable(r, e.sessionId, o.here);
        }
    }
  }

  lemma BuildableFits(size: Message -> nat, m: Message)
    requires EncodingBounded(size) && Buildable(m)
    ensures Fits(size, m) || m.payload.SystemMessage?
  {
    if m.payload.RoomListResponse? {
      NameBytesBounded(m.payload.rooms);
    }
  }

  /** Whatever a handler sends can be built, and nothing but a system message is ever too large. */
  lemma SentFits(size: Message -> nat, r: Rooms, e: Event, o: Order)
    requires GameOk(r) && GoodOrder(r, e, o) && EncodingBounded(size)
    ensures AllBuildable(Handle(r, e, o).sent) && FitsUnlessNotice(size, Handle(r, e, o).sent)
  {
    hide GoodOrder, Handle, NamesOk, FixedRooms, Indexed, EncodingBounded, Buildable, Fits;
    SentIsBuildable(r, e, o);
    forall m | m in Handle(r, e, o).sent ensures Fits(size, m.message) || m.message.payload.SystemMessage? {
      BuildableFits(size, m.message);
    }
  }

  // ----- What the server knows -----

  /** The user ids of the other members of a session's room. */
  ghost function Others(r: Rooms, s: u32): set<u32>
    requires s in r.sessions
  {
    set t | t in r.sessions && t != s && r.sessions[s].roomId != NO_ROOM_ID
            && r.sessions[t].roomId == r.sessions[s].roomId :: r.sessions[t].userId
  }

  ghost function Truth(r: Rooms, s: u32): ClientView
    requires s in r.sessions
  {
    ClientView(r.sessions[s].roomId, Others(r, s))
  }

  /** Two sessions are in the same room. */
  predicate Together(r: Rooms, s: u32, t: u32) {
    && s in r.sessions && t in r.sessions && s != t
    && r.sessions[s].roomId != NO_ROOM_ID && r.sessions[t].roomId == r.sessions[s].roomId
  }

  lemma OthersAreTogether(r: Rooms, s: u32)
    requires Indexed(r) && s in r.sessions
    ensures forall t :: t in Others(r, s) <==> Together(r, s, t)
  {
    forall t | Together(r, s, t) ensures t in Others(r, s) {
      assert r.sessions[t].userId == t;
    }
  }

  // ----- Fan-out -----

  predicate Has(ms: seq<SessionState>, s: u32) {
    exists m :: m in ms && m.sessionId == s
  }

  ghost predicate Distinct(ms: seq<SessionState>) {
    && (forall i, j :: 0 <= i < j < |ms| ==> ms[i].sessionId != ms[j].sessionId)
    && (forall m :: m in ms ==> m.userId == m.sessionId)
  }

  lemma HasLast(ms: seq<SessionState>, s: u32)
    requires ms != []
    ensures Has(ms, s) <==> Has(ms[..|ms| - 1], s) || ms[|ms| - 1].sessionId == s
  {
    assert ms == ms[..|ms| - 1] + [ms[|ms| - 1]];
  }

  /** The last one is not among the others. */
  lemma NoRepeat(ms: seq<SessionState>)
    requires Distinct(ms) && ms != []
    ensures Distinct(ms[..|ms| - 1]) && !Has(ms[..|ms| - 1], ms[|ms| - 1].sessionId)
    ensures ms[|ms| - 1].userId == ms[|ms| - 1].sessionId
  {
    assert ms[|ms| - 1] in ms;
  }

  lemma NothingTold(v: ClientView, s: u32)
    ensures Fold(v, s, []) == v && Coherent(v, s, []) && !Has([], s)
  {
  }

  lemma OneDepartureMore(ms: seq<SessionState>, room: u32, user: UserInfo)
    ensures LeftEvents([], room, user) == []
    ensures ms != [] ==>
              LeftEvents(ms, room, user)
              == LeftEvents(ms[..|ms| - 1], room, user) + [To(ms[|ms| - 1].sessionId, 0, UserLeftEvent(room, user))]
  {
  }

  lemma {:induction false} FoldLeft(v: ClientView, s: u32, ms: seq<SessionState>, room: u32, user: UserInfo)
    requires Distinct(ms)
    requires Has(ms, s) ==> room == v.room && user.userId in v.others
    ensures Fold(v, s, LeftEvents(ms, room, user)) == if Has(ms, s) then v.(others := v.others - {user.userId}) else v
    ensures Coherent(v, s, LeftEvents(ms, room, user))
  {
    hide Fold, Coherent, LeftEvents, Has, Distinct;
    NothingTold(v, s);
    OneDepartureMore(ms, room, user);
    if ms != [] {
      var init, last := ms[..|ms| - 1], ms[|ms| - 1];
      HasLast(ms, s);
      NoRepeat(ms);
      FoldLeft(v, s, init, room, user);
      OneMore(v, s, LeftEvents(init, room, user), To(last.sessionId, 0, UserLeftEvent(room, user)));
    }
  }

  lemma OneBroadcastMore(ms: seq<SessionState>, room: u32, sender: SessionState, content: Bytes)
    ensures Broadcasts([], room, sender, content) == []
    ensures ms != [] ==>
              Broadcasts(ms, room, sender, content)
              == Broadcasts(ms[..|ms| - 1], room, sender, content)
                 + [To(ms[|ms| - 1].sessionId, 0,
                     ChatBroadcast(room, sender.userId, CStr(sender.displayName), CStr(content)))]
  {
  }

  lemma {:induction false} FoldBroadcasts(v: ClientView, s: u32, ms: seq<SessionState>, room: u32,
      sender: SessionState, content: Bytes)
    requires Has(ms, s) ==> room == v.room && (sender.userId == s || sender.userId in v.others)
    ensures Fold(v, s, Broadcasts(ms, room, sender, content)) == v
    ensures Coherent(v, s, Broadcasts(ms, room, sender, content))
  {
    hide Fold, Coherent, Broadcasts, Has, CStr;
    NothingTold(v, s);
    OneBroadcastMore(ms, room, sender, content);
    if ms != [] {
      var init, last := ms[..|ms| - 1], ms[|ms| - 1];
      HasLast(ms, s);
      FoldBroadcasts(v, s, init, room, sender, content);
      OneMore(v, s, Broadcasts(init, room, sender, content),
              To(last.sessionId, 0, ChatBroadcast(room, sender.userId, CStr(sender.displayName), CStr(content))));
    }
  }

  function IdsIn(ms: seq<SessionState>): set<u32> {
    set m | m in ms :: m.sessionId
  }

  lemma OneIntroductionMore(ms: seq<SessionState>, room: u32, me: SessionState)
    requires ms != [] && ms[|ms| - 1].loggedIn
    ensures var other := ms[|ms| - 1];
            JoinedEvents(ms, room, me)
            == (JoinedEvents(ms[..|ms| - 1], room, me) + [To(other.sessionId, 0, UserJoinedEvent(room, InfoOf(me)))])
               + [To(me.sessionId, 0, UserJoinedEvent(room, InfoOf(other)))]
    ensures IdsIn(ms) == IdsIn(ms[..|ms| - 1]) + {ms[|ms| - 1].sessionId}
  {
    assert ms == ms[..|ms| - 1] + [ms[|ms| - 1]];
  }

  lemma NoIntroductions(room: u32, me: SessionState)
    ensures JoinedEvents([], room, me) == [] && IdsIn([]) == {}
  {
  }

  lemma LoggedIn(ms: seq<SessionState>)
    requires ms != [] && forall m :: m in ms ==> m.loggedIn
    ensures ms[|ms| - 1].loggedIn && forall m :: m in ms[..|ms| - 1] ==> m.loggedIn
  {
    assert ms[|ms| - 1] in ms;
  }

  /** A bystander of a join: told once about the newcomer if it is in the room. */
  lemma {:induction false} FoldJoinedOther(v: ClientView, s: u32, ms: seq<SessionState>, room: u32, me: SessionState)
    requires Distinct(ms) && s != me.sessionId && me.userId == me.sessionId && forall m :: m in ms ==> m.loggedIn
    requires Has(ms, s) ==> room == v.room && me.userId !in v.others
    ensures Fold(v, s, JoinedEvents(ms, room, me)) == if Has(ms, s) then v.(others := v.others + {me.userId}) else v
    ensures Coherent(v, s, JoinedEvents(ms, room, me))
  {
    hide Fold, Coherent, JoinedEvents, Has, Distinct, CStr;
    NothingTold(v, s);
    NoIntroductions(room, me);
    if ms != [] {
      var init, other := ms[..|ms| - 1], ms[|ms| - 1];
      HasLast(ms, s);
      NoRepeat(ms);
      LoggedIn(ms);
      FoldJoinedOther(v, s, init, room, me);
      OneIntroductionMore(ms, room, me);
      var sent := JoinedEvents(init, room, me);
      var toOther := To(other.sessionId, 0, UserJoinedEvent(room, InfoOf(me)));
      OneMore(v, s, sent, toOther);
      OneMore(v, s, sent + [toOther], To(me.sessionId, 0, UserJoinedEvent(room, InfoOf(other))));
    }
  }

  /** The newcomer: told once about each member. */
  lemma {:induction false} FoldJoinedMe(v: ClientView, ms: seq<SessionState>, room: u32, me: SessionState)
    requires Distinct(ms) && !Has(ms, me.sessionId) && forall m :: m in ms ==> m.loggedIn
    requires room == v.room && v.others == {}
    ensures Fold(v, me.sessionId, JoinedEvents(ms, room, me)) == v.(others := IdsIn(ms))
    ensures Coherent(v, me.sessionId, JoinedEvents(ms, room, me))
  {
    hide Fold, Coherent, JoinedEvents, Has, Distinct, CStr, IdsIn;
    NothingTold(v, me.sessionId);
    NoIntroductions(room, me);
    if ms != [] {
      var init, other := ms[..|ms| - 1], ms[|ms| - 1];
      HasLast(ms, me.sessionId);
      NoRepeat(ms);
      LoggedIn(ms);
      HasMeansIn(init, other.sessionId);
      FoldJoinedMe(v, init, room, me);
      OneIntroductionMore(ms, room, me);
      var sent := JoinedEvents(init, room, me);
      var toOther := To(other.sessionId, 0, UserJoinedEvent(room, InfoOf(me)));
      OneMore(v, me.sessionId, sent, toOther);
      OneMore(v, me.sessionId, sent + [toOther], To(me.sessionId, 0, UserJoinedEvent(room, InfoOf(other))));
    }
  }

  lemma HasMeansIn(ms: seq<SessionState>, s: u32)
    ensures Has(ms, s) <==> s in IdsIn(ms)
  {
  }
}
