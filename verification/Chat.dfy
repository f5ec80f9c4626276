/** The chat server's event handlers, as functions from the room tables to new tables and messages. */
module Chat {
  import opened Bytes
  import opened ServerTypes
  import opened RoomSystems

  const MAX_DISPLAY_NAME_BYTES := 32
  const MAX_CHAT_MESSAGE_BYTES := 512
  const MAX_PROTOCOL_PAYLOAD_BYTES := 2048

  /**
   * The iteration orders of the unordered containers a handler runs through: members of the room the session is in,
   * members of the room it joins, and the rooms themselves.
   */
  datatype Order = Order(here: seq<u32>, there: seq<u32>, rooms: seq<u32>)

  datatype Entry = Entry(event: Event, order: Order)

  function MembersOf(r: Rooms, q: u32): set<u32> {
    if q in r.rooms then r.rooms[q].members else {}
  }

  function RoomOf(r: Rooms, id: u32): u32 {
    if id in r.sessions then r.sessions[id].roomId else NO_ROOM_ID
  }

  ghost predicate GoodOrder(r: Rooms, e: Event, o: Order) {
    && Enumerates(o.here, MembersOf(r, RoomOf(r, e.sessionId)))
    && (e.JoinRoomRequest? ==> Enumerates(o.there, MembersOf(r, e.roomId)))
    && Enumerates(o.rooms, r.rooms.Keys)
  }

  // ----- Messages -----

  function To(id: u32, requestId: u32, p: Payload): OutgoingMessage {
    OutgoingMessage(id, Message(requestId, p))
  }

  function LeftEvents(ms: seq<SessionState>, room: u32, user: UserInfo): seq<OutgoingMessage> {
    if ms == [] then []
    else LeftEvents(ms[..|ms| - 1], room, user) + [To(ms[|ms| - 1].sessionId, 0, UserLeftEvent(room, user))]
  }

  /** Each logged-in member and the newcomer are told about each other. */
  function JoinedEvents(ms: seq<SessionState>, room: u32, me: SessionState): seq<OutgoingMessage> {
    if ms == [] then []
    else
      var other := ms[|ms| - 1];
      JoinedEvents(ms[..|ms| - 1], room, me)
      + if !other.loggedIn then []
        else [To(other.sessionId, 0, UserJoinedEvent(room, InfoOf(me))),
              To(me.sessionId, 0, UserJoinedEvent(room, InfoOf(other)))]
  }

  function Broadcasts(ms: seq<SessionState>, room: u32, sender: SessionState, content: Bytes): seq<OutgoingMessage> {
    if ms == [] then []
    else
      Broadcasts(ms[..|ms| - 1], room, sender, content)
      + [To(ms[|ms| - 1].sessionId, 0, ChatBroadcast(room, sender.userId, CStr(sender.displayName), CStr(content)))]
  }

  function Listing(r: Rooms, order: seq<u32>): seq<RoomInfo> {
    if order == [] then []
    else
      var q := order[|order| - 1];
      Listing(r, order[..|order| - 1]) + (if q in r.rooms then [RoomInfoOf(r.rooms[q])] else [])
  }

  function LeaveNotices(r: Rooms, s: SessionState, order: seq<u32>): seq<OutgoingMessage> {
    if s.roomId == NO_ROOM_ID || !s.loggedIn then []
    else LeftEvents(MemberStates(r, if s.roomId in r.rooms then order else [], Some(s.sessionId)), s.roomId, InfoOf(s))
  }

  // ----- Handlers -----

  /** New tables, messages handed to QueueMessage in order, and sessions to be disconnected. */
  datatype Outcome = Outcome(rooms: Rooms, sent: seq<OutgoingMessage>, cut: seq<u32>)

  function OnDisconnected(r: Rooms, id: u32, o: Order): Outcome {
    Outcome(WithoutSession(r, id), if id in r.sessions then LeaveNotices(r, r.sessions[id], o.here) else [], [])
  }

  function OnLogin(r: Rooms, id: u32, rid: u32, name: Bytes): Outcome {
    if id !in r.sessions then Outcome(r, [], [])
    else if name == [] || |name| > MAX_DISPLAY_NAME_BYTES then
      Outcome(r, [To(id, rid, LoginResponse(false, InvalidName, None))], [])
    else if NameTaken(r, name, id) then
      Outcome(r, [To(id, rid, LoginResponse(false, DuplicateName, None))], [])
    else
      var r' := WithName(r, id, name);
      Outcome(r', [To(id, rid, LoginResponse(true, NoError, Some(InfoOf(r'.sessions[id]))))], [])
  }

  function OnJoin(r: Rooms, id: u32, rid: u32, q: u32, o: Order): Outcome {
    if id !in r.sessions then Outcome(r, [], [])
    else if !r.sessions[id].loggedIn then Outcome(r, [To(id, rid, JoinRoomResponse(false, InvalidName, None))], [])
    else if q !in r.rooms then Outcome(r, [To(id, rid, JoinRoomResponse(false, RoomNotFound, None))], [])
    else if r.sessions[id].roomId == q then
      Outcome(r, [To(id, rid, JoinRoomResponse(false, AlreadyInRoom, None))], [])
    else
      var leaving := LeaveNotices(r, r.sessions[id], o.here);
      var out := OutOfRoom(r, id);
      var existing := MemberStates(out, o.there, None);
      var in' := InsideRoom(out, id, q);
      var room := in'.rooms[q];
      Outcome(in',
              leaving
              + [To(id, rid, JoinRoomResponse(true, NoError, Some(RoomInfoOf(room)))),
                 To(id, 0, SystemMessage(room.roomId, Entered(CStr(room.roomName))))]
              + JoinedEvents(existing, room.roomId, in'.sessions[id]),
              [])
  }

  function OnChat(r: Rooms, id: u32, content: Bytes, o: Order): Outcome {
    if id !in r.sessions || !r.sessions[id].loggedIn then Outcome(r, [], [])
    else
      var s := r.sessions[id];
      if s.roomId == NO_ROOM_ID then Outcome(r, [To(id, 0, SystemMessage(0, JoinFirst))], [])
      else if content == [] then Outcome(r, [To(id, 0, SystemMessage(s.roomId, EmptyChat))], [])
      else if |content| > MAX_CHAT_MESSAGE_BYTES then Outcome(r, [To(id, 0, SystemMessage(s.roomId, ChatTooLong))], [])
      else
        var members := MemberStates(r, if s.roomId in r.rooms then o.here else [], None);
        Outcome(r, Broadcasts(members, s.roomId, s, content), [])
  }

  function OnLeave(r: Rooms, id: u32, rid: u32, o: Order): Outcome {
    if id !in r.sessions then Outcome(r, [], [])
    else if r.sessions[id].roomId == NO_ROOM_ID then
      Outcome(r, [To(id, rid, LeaveRoomResponse(false, NotInRoom))], [])
    else
      Outcome(OutOfRoom(r, id),
              LeaveNotices(r, r.sessions[id], o.here)
              + [To(id, rid, LeaveRoomResponse(true, NoError)),
                 To(id, 0, SystemMessage(r.sessions[id].roomId, Departed))],
              [])
  }

  function OnDisconnectRequest(r: Rooms, id: u32, rid: u32, o: Order): Outcome {
    Outcome(WithoutSession(r, id),
            [To(id, rid, DisconnectResponse(true, NoError))]
            + if id in r.sessions then LeaveNotices(r, r.sessions[id], o.here) else [],
            [id])
  }

  function Handle(r: Rooms, e: Event, o: Order): Outcome {
    match e
    case SessionConnected(id) => Outcome(WithSession(r, id), [], [])
    case SessionDisconnected(id) => OnDisconnected(r, id, o)
    case InvalidPacket(id, text) => Outcome(r, [To(id, 0, SystemMessage(0, Rejected(CStr(text))))], [])
    case LoginRequest(id, rid, name) => OnLogin(r, id, rid, name)
    case RoomListRequest(id, rid) => Outcome(r, [To(id, rid, RoomListResponse(Listing(r, o.rooms)))], [])
    case JoinRoomRequest(id, rid, q) => OnJoin(r, id, rid, q, o)
    case ChatSendRequest(id, _, content) => OnChat(r, id, content, o)
    case LeaveRoomRequest(id, rid) => OnLeave(r, id, rid, o)
    case DisconnectRequest(id, rid) => OnDisconnectRequest(r, id, rid, o)
  }

  lemma ChatKeepsRooms(r: Rooms, id: u32, content: Bytes, o: Order)
    ensures OnChat(r, id, content, o).rooms == r
  {
  }

  // ----- QueueMessage -----

  /** `size` gives the encoded size of a message; empty and oversized encodings are dropped without notice. */
  predicate Fits(size: Message -> nat, m: Message) {
    0 < size(m) <= MAX_PROTOCOL_PAYLOAD_BYTES
  }

  function Sift(size: Message -> nat, sent: seq<OutgoingMessage>): seq<OutgoingMessage> {
    if sent == [] then []
    else
      var last := sent[|sent| - 1];
      Sift(size, sent[..|sent| - 1]) + (if Fits(size, last.message) then [last] else [])
  }

  // ----- Runs -----

  /** An entry whose order is not a possible iteration order changes nothing. */
  ghost function OutcomeOf(r: Rooms, x: Entry): Outcome {
    if GoodOrder(r, x.event, x.order) then Handle(r, x.event, x.order) else Outcome(r, [], [])
  }

  ghost function RoomsAfter(run: seq<Entry>): Rooms {
    if run == [] then InitialRooms else OutcomeOf(RoomsAfter(run[..|run| - 1]), run[|run| - 1]).rooms
  }

  /** The messages of the last step of a run. */
  ghost function LastSent(size: Message -> nat, run: seq<Entry>): seq<OutgoingMessage>
    requires run != []
  {
    Sift(size, OutcomeOf(RoomsAfter(run[..|run| - 1]), run[|run| - 1]).sent)
  }

  /** Every message queued during a run, in order. */
  ghost function Log(size: Message -> nat, run: seq<Entry>): seq<OutgoingMessage> {
    if run == [] then [] else Log(size, run[..|run| - 1]) + LastSent(size, run)
  }

  /** Every session the game logic asked to disconnect during a run, in order. */
  ghost function Cuts(run: seq<Entry>): seq<u32> {
    if run == [] then [] else Cuts(run[..|run| - 1]) + OutcomeOf(RoomsAfter(run[..|run| - 1]), run[|run| - 1]).cut
  }

  // ----- The state every run keeps -----

  ghost predicate NamesOk(r: Rooms) {
    && (forall id :: id in r.sessions && r.sessions[id].loggedIn ==>
          1 <= |r.sessions[id].displayName| <= MAX_DISPLAY_NAME_BYTES)
    && (forall a, b :: a in r.sessions && b in r.sessions && a != b && r.sessions[a].loggedIn && r.sessions[b].loggedIn
                       ==> r.sessions[a].displayName != r.sessions[b].displayName)
    && (forall id :: id in r.sessions && r.sessions[id].roomId != NO_ROOM_ID ==> r.sessions[id].loggedIn)
  }

  ghost predicate GameOk(r: Rooms) {
    Indexed(r) && FixedRooms(r) && NamesOk(r)
  }

  /** Nobody enters a room, logs out or changes names. */
  lemma NamesKeptByLeaving(r: Rooms, id: u32)
    requires NamesOk(r)
    ensures NamesOk(OutOfRoom(r, id)) && NamesOk(WithoutSession(r, id)) && NamesOk(WithSession(r, id))
  {
  }

  lemma NamesKeptByLogin(r: Rooms, id: u32, rid: u32, name: Bytes)
    requires NamesOk(r)
    ensures NamesOk(OnLogin(r, id, rid, name).rooms)
  {
  }

  lemma NamesKeptByJoin(r: Rooms, id: u32, q: u32)
    requires NamesOk(r) && id in r.sessions && r.sessions[id].loggedIn
    ensures NamesOk(InsideRoom(OutOfRoom(r, id), id, q))
  {
  }

  lemma NamesKept(r: Rooms, e: Event, o: Order)
    requires NamesOk(r)
    ensures NamesOk(Handle(r, e, o).rooms)
  {
    hide NamesOk;
    match e {
      case LoginRequest(id, rid, name) => NamesKeptByLogin(r, id, rid, name);
      case JoinRoomRequest(id, _, q) =>
        if id in r.sessions && r.sessions[id].loggedIn {
          NamesKeptByJoin(r, id, q);
        }
      case _ => NamesKeptByLeaving(r, e.sessionId);
    }
  }

  lemma TablesKept(r: Rooms, e: Event, o: Order)
    requires Indexed(r) && FixedRooms(r)
    ensures Indexed(Handle(r, e, o).rooms) && FixedRooms(Handle(r, e, o).rooms)
  {
    hide Indexed, LeaveNotices, MemberStates, JoinedEvents, Broadcasts, NameTaken, Listing;
    match e {
      case SessionConnected(id) => AddKeepsIndex(r, id);
      case SessionDisconnected(id) => RemoveKeepsIndex(r, id);
      case LoginRequest(id, _, name) => LoginKeepsIndex(r, id, name);
      case JoinRoomRequest(id, _, q) =>
        OutOfRoomKeepsIndex(r, id);
        MoveKeepsIndex(OutOfRoom(r, id), id, q);
      case LeaveRoomRequest(id, _) => OutOfRoomKeepsIndex(r, id);
      case DisconnectRequest(id, _) => RemoveKeepsIndex(r, id);
      case _ =>
    }
  }

  /**
   * Over all runs: the index is exact; no two logged-in sessions hold the same stored name; every logged-in
   * name has 1 to 32 bytes; and whoever is in a room is logged in.
   */
  lemma {:induction false} GameAlwaysOk(run: seq<Entry>)
    ensures GameOk(RoomsAfter(run))
  {
    if run != [] {
      var before, x := RoomsAfter(run[..|run| - 1]), run[|run| - 1];
      GameAlwaysOk(run[..|run| - 1]);
      TablesKept(before, x.event, x.order);
      NamesKept(before, x.event, x.order);
    }
  }
}
