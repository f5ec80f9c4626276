/** The session table and the room membership index. */
module RoomSystems {
  import opened Bytes
  import opened ServerTypes

  datatype Rooms = Rooms(sessions: map<u32, SessionState>, rooms: map<u32, RoomState>)

  const LOBBY: Bytes := [0x4C, 0x6F, 0x62, 0x62, 0x79]
  const DEV: Bytes := [0x44, 0x65, 0x76]
  const CHAT: Bytes := [0x43, 0x68, 0x61, 0x74]

  const InitialRooms := Rooms(map[], map[
    1001 := RoomState(1001, LOBBY, {}),
    1002 := RoomState(1002, DEV, {}),
    1003 := RoomState(1003, CHAT, {})])

  // ----- Mutators, as functions on the two tables -----

  function WithSession(r: Rooms, id: u32): Rooms {
    if id in r.sessions then r
    else r.(sessions := r.sessions[id := SessionState(id, id, [], NO_ROOM_ID, false)])
  }

  function OutOfRoom(r: Rooms, id: u32): Rooms {
    if id !in r.sessions || r.sessions[id].roomId == NO_ROOM_ID then r
    else
      var at := r.sessions[id].roomId;
      r.(rooms := if at in r.rooms then r.rooms[at := r.rooms[at].(members := r.rooms[at].members - {id})] else r.rooms,
         sessions := r.sessions[id := r.sessions[id].(roomId := NO_ROOM_ID)])
  }

  function WithoutSession(r: Rooms, id: u32): Rooms {
    var r := OutOfRoom(r, id);
    r.(sessions := r.sessions - {id})
  }

  function InsideRoom(r: Rooms, id: u32, to: u32): Rooms {
    if id !in r.sessions || to !in r.rooms then r
    else
      var at := r.sessions[id].roomId;
      var r := if at != NO_ROOM_ID && at != to then OutOfRoom(r, id) else r;
      r.(rooms := r.rooms[to := r.rooms[to].(members := r.rooms[to].members + {id})],
         sessions := r.sessions[id := r.sessions[id].(roomId := to)])
  }

  function WithName(r: Rooms, id: u32, name: Bytes): Rooms {
    if id !in r.sessions then r
    else r.(sessions := r.sessions[id := r.sessions[id].(loggedIn := true, displayName := name)])
  }

  // ----- The index agrees with the table -----

  predicate InRoom(r: Rooms, id: u32, room: u32) {
    id in r.sessions && r.sessions[id].roomId == room
  }

  ghost predicate Indexed(r: Rooms) {
    && (forall id :: id in r.sessions ==> r.sessions[id].sessionId == id && r.sessions[id].userId == id)
    && (forall id :: id in r.sessions ==> r.sessions[id].roomId == NO_ROOM_ID || r.sessions[id].roomId in r.rooms)
    && (forall q :: q in r.rooms ==> q != NO_ROOM_ID && r.rooms[q].roomId == q)
    && (forall q, id :: q in r.rooms ==> (id in r.rooms[q].members <==> InRoom(r, id, q)))
  }

  /** The rooms are those of the constructor, under their names. */
  ghost predicate FixedRooms(r: Rooms) {
    && r.rooms.Keys == InitialRooms.rooms.Keys
    && forall q :: q in r.rooms ==> r.rooms[q].roomName == InitialRooms.rooms[q].roomName
  }

  lemma OutOfRoomKeepsIndex(r: Rooms, id: u32)
    requires Indexed(r)
    ensures Indexed(OutOfRoom(r, id))
    ensures FixedRooms(r) ==> FixedRooms(OutOfRoom(r, id))
  {
    var r' := OutOfRoom(r, id);
    assert forall x, q :: x != id ==> InRoom(r', x, q) == InRoom(r, x, q);
  }

  lemma AddKeepsIndex(r: Rooms, id: u32)
    requires Indexed(r)
    ensures Indexed(WithSession(r, id))
  {
    assert forall x, q :: q in r.rooms ==> InRoom(WithSession(r, id), x, q) == InRoom(r, x, q);
  }

  lemma RemoveKeepsIndex(r: Rooms, id: u32)
    requires Indexed(r)
    ensures Indexed(WithoutSession(r, id))
  {
    OutOfRoomKeepsIndex(r, id);
    var out := OutOfRoom(r, id);
    assert forall x, q :: q in r.rooms ==> InRoom(WithoutSession(r, id), x, q) == InRoom(out, x, q);
  }

  lemma MoveKeepsIndex(r: Rooms, id: u32, to: u32)
    requires Indexed(r)
    ensures Indexed(InsideRoom(r, id, to))
  {
    OutOfRoomKeepsIndex(r, id);
    var r' := InsideRoom(r, id, to);
    assert forall x, q :: x != id ==> InRoom(r', x, q) == InRoom(r, x, q);
  }

  lemma LoginKeepsIndex(r: Rooms, id: u32, name: Bytes)
    requires Indexed(r)
    ensures Indexed(WithName(r, id, name))
  {
    assert forall x, q :: InRoom(WithName(r, id, name), x, q) == InRoom(r, x, q);
  }

  datatype RoomCall =
    | Add(id: u32)
    | Remove(id: u32)
    | RemoveFromRoom(id: u32)
    | Move(id: u32, to: u32)
    | LogIn(id: u32, name: Bytes)

  function AfterCalls(calls: seq<RoomCall>): Rooms {
    if calls == [] then InitialRooms
    else
      var r := AfterCalls(calls[..|calls| - 1]);
      match calls[|calls| - 1]
      case Add(id) => WithSession(r, id)
      case Remove(id) => WithoutSession(r, id)
      case RemoveFromRoom(id) => OutOfRoom(r, id)
      case Move(id, to) => InsideRoom(r, id, to)
      case LogIn(id, name) => WithName(r, id, name)
  }

  /** From the constructor on, after any calls with any arguments, the index is the simple map. */
  lemma {:induction false} IndexAlwaysAgrees(calls: seq<RoomCall>)
    ensures Indexed(AfterCalls(calls)) && FixedRooms(AfterCalls(calls))
  {
    if calls != [] {
      var r := AfterCalls(calls[..|calls| - 1]);
      IndexAlwaysAgrees(calls[..|calls| - 1]);
      match calls[|calls| - 1] {
        case Add(id) => AddKeepsIndex(r, id);
        case Remove(id) => RemoveKeepsIndex(r, id);
        case RemoveFromRoom(id) => OutOfRoomKeepsIndex(r, id);
        case Move(id, to) => MoveKeepsIndex(r, id, to);
        case LogIn(id, name) => LoginKeepsIndex(r, id, name);
      }
      MutatorsKeepRooms(r, calls[|calls| - 1]);
    }
  }

  lemma MutatorsKeepRooms(r: Rooms, c: RoomCall)
    requires FixedRooms(r)
    ensures FixedRooms(match c
                       case Add(id) => WithSession(r, id)
                       case Remove(id) => WithoutSession(r, id)
                       case RemoveFromRoom(id) => OutOfRoom(r, id)
                       case Move(id, to) => InsideRoom(r, id, to)
                       case LogIn(id, name) => WithName(r, id, name))
  {
  }

  /** Each session is in at most one room, and the member counts add up to the sessions that are in a room. */
  lemma MemberCountsAddUp(r: Rooms)
    requires Indexed(r) && FixedRooms(r)
    ensures forall p, q, id ::
              p in r.rooms && q in r.rooms && id in r.rooms[p].members && id in r.rooms[q].members ==> p == q
    ensures |r.rooms[1001].members| + |r.rooms[1002].members| + |r.rooms[1003].members|
            == |set id | id in r.sessions && r.sessions[id].roomId != NO_ROOM_ID|
  {
    hide Indexed;
    RoomsAreThree(r);
    forall q | q in r.rooms
      ensures forall id :: id in r.rooms[q].members <==> id in r.sessions && r.sessions[id].roomId == q
    {
      MembersAreThere(r, q);
    }
    var a, b, c := r.rooms[1001].members, r.rooms[1002].members, r.rooms[1003].members;
    assert |a + b + c| == |a| + |b| + |c|;
    assert a + b + c == set id | id in r.sessions && r.sessions[id].roomId != NO_ROOM_ID;
  }

  lemma RoomsAreThree(r: Rooms)
    requires Indexed(r) && FixedRooms(r)
    ensures forall q :: q in r.rooms <==> q == 1001 || q == 1002 || q == 1003
    ensures forall id :: id in r.sessions && r.sessions[id].roomId != NO_ROOM_ID ==> r.sessions[id].roomId in r.rooms
  {
  }

  lemma MembersAreThere(r: Rooms, q: u32)
    requires Indexed(r) && q in r.rooms
    ensures q != NO_ROOM_ID && forall id :: id in r.rooms[q].members <==> id in r.sessions && r.sessions[id].roomId == q
  {
    assert forall id :: id in r.rooms[q].members <==> InRoom(r, id, q);
  }

  // ----- Queries -----

  /** A name is taken by another session that is logged in under it. */
  predicate NameTaken(r: Rooms, name: Bytes, except: u32) {
    exists id :: id in r.sessions && id != except && r.sessions[id].loggedIn && r.sessions[id].displayName == name
  }

  /** An iteration order of an unordered container. */
  ghost predicate Enumerates(order: seq<u32>, s: set<u32>) {
    && (forall i, j :: 0 <= i < j < |order| ==> order[i] != order[j])
    && (forall x :: x in order <==> x in s)
  }

  /** The states of the listed sessions, leaving out unknown ones and `exclude`. */
  function MemberStates(r: Rooms, order: seq<u32>, exclude: Option<u32>): seq<SessionState> {
    if order == [] then []
    else
      var id := order[|order| - 1];
      MemberStates(r, order[..|order| - 1], exclude)
      + (if exclude == Some(id) || id !in r.sessions then [] else [r.sessions[id]])
  }

  /** What the query returns is the session table filtered by room, each session once. */
  lemma {:induction false} MembersAreFilteredTable(r: Rooms, order: seq<u32>, exclude: Option<u32>, part: set<u32>)
    requires Indexed(r) && Enumerates(order, part)
    ensures var ms := MemberStates(r, order, exclude);
            && (forall i, j :: 0 <= i < j < |ms| ==> ms[i].sessionId != ms[j].sessionId)
            && (forall m :: m in ms <==>
                  m.sessionId in part && m.sessionId in r.sessions && m == r.sessions[m.sessionId]
                      && exclude != Some(m.sessionId))
    decreases |order|
  {
    if order != [] {
      var init, id := order[..|order| - 1], order[|order| - 1];
      assert order == init + [id];
      assert Enumerates(init, part - {id});
      MembersAreFilteredTable(r, init, exclude, part - {id});
    }
  }

  /** The known members of a room, `exclude` left out. */
  ghost function Found(r: Rooms, room: u32, exclude: Option<u32>): set<u32> {
    Known(r, if room in r.rooms then r.rooms[room].members else {}, exclude)
  }

  ghost function Known(r: Rooms, part: set<u32>, exclude: Option<u32>): (found: set<u32>)
    ensures forall id :: id in found ==> id in r.sessions
  {
    set id | id in part && id in r.sessions && exclude != Some(id)
  }

  ghost predicate StatesOf(r: Rooms, ms: seq<SessionState>, found: set<u32>)
    requires forall id :: id in found ==> id in r.sessions
  {
    && |ms| == |found|
    && (forall id :: id in found ==> r.sessions[id] in ms)
    && (forall m :: m in ms ==> exists id :: id in found && m == r.sessions[id])
  }

  lemma OneStateMore(r: Rooms, ms: seq<SessionState>, found: set<u32>, id: u32)
    requires (forall x :: x in found ==> x in r.sessions) && id in r.sessions && id !in found && StatesOf(r, ms, found)
    ensures StatesOf(r, ms + [r.sessions[id]], found + {id})
  {
    forall m | m in ms + [r.sessions[id]] ensures exists x :: x in found + {id} && m == r.sessions[x] {
      if m in ms {
        var x :| x in found && m == r.sessions[x];
        assert x in found + {id};
      } else {
        assert id in found + {id};
      }
    }
  }

  lemma OneElementLess(order: seq<u32>, part: set<u32>)
    requires Enumerates(order, part) && order != []
    ensures order[|order| - 1] in part && Enumerates(order[..|order| - 1], part - {order[|order| - 1]})
  {
    assert order == order[..|order| - 1] + [order[|order| - 1]];
  }

  lemma KnownWithout(r: Rooms, part: set<u32>, id: u32, exclude: Option<u32>)
    requires id in part
    ensures var before := Known(r, part - {id}, exclude);
            id !in before
            && Known(r, part, exclude) == if exclude == Some(id) || id !in r.sessions then before else before + {id}
  {
  }

  lemma {:induction false} MembersAreFound(r: Rooms, order: seq<u32>, exclude: Option<u32>, part: set<u32>)
    requires Enumerates(order, part)
    ensures StatesOf(r, MemberStates(r, order, exclude), Known(r, part, exclude))
    decreases |order|
  {
    hide StatesOf, Enumerates, Known;
    if order != [] {
      var init, id := order[..|order| - 1], order[|order| - 1];
      OneElementLess(order, part);
      MembersAreFound(r, init, exclude, part - {id});
      KnownWithout(r, part, id, exclude);
      if exclude != Some(id) && id in r.sessions {
        OneStateMore(r, MemberStates(r, init, exclude), Known(r, part - {id}, exclude), id);
      } else {
        assert MemberStates(r, init, exclude) + [] == MemberStates(r, init, exclude);
      }
    } else {
      NothingEnumerated(part);
      NoStates(r, exclude);
    }
  }

  lemma NothingEnumerated(part: set<u32>)
    requires Enumerates([], part)
    ensures part == {}
  {
  }

  lemma NoStates(r: Rooms, exclude: Option<u32>)
    ensures StatesOf(r, [], Known(r, {}, exclude))
  {
  }

  lemma RoomMembersAreFilteredTable(r: Rooms, room: u32, order: seq<u32>, exclude: Option<u32>)
    requires Indexed(r) && room in r.rooms && Enumerates(order, r.rooms[room].members)
    ensures forall m :: m in MemberStates(r, order, exclude) <==>
              InRoom(r, m.sessionId, room) && m == r.sessions[m.sessionId] && exclude != Some(m.sessionId)
  {
    MembersAreFilteredTable(r, order, exclude, r.rooms[room].members);
  }

  // ----- The class -----

  class RoomSystem {
    var sessions: map<u32, SessionState>
    var rooms: map<u32, RoomState>

    function View(): Rooms
      reads this
    {
      Rooms(sessions, rooms)
    }

    constructor ()
      ensures View() == InitialRooms
      ensures Indexed(View()) && FixedRooms(View())
    {
      sessions := map[];
      rooms := map[];
      new;
      rooms := rooms[1001 := RoomState(1001, LOBBY, {})];
      rooms := rooms[1002 := RoomState(1002, DEV, {})];
      rooms := rooms[1003 := RoomState(1003, CHAT, {})];
    }

    method AddSession(id: u32)
      modifies this
      ensures View() == WithSession(old(View()), id)
    {
      if id !in sessions {
        sessions := sessions[id := SessionState(id, id, [], NO_ROOM_ID, false)];
      }
    }

    method RemoveSession(id: u32)
      modifies this
      ensures View() == WithoutSession(old(View()), id)
    {
      RemoveSessionFromCurrentRoom(id);
      sessions := sessions - {id};
    }

    method RemoveSessionFromCurrentRoom(id: u32)
      modifies this
      ensures View() == OutOfRoom(old(View()), id)
    {
      var found := FindSession(id);
      if found.None? || found.value.roomId == NO_ROOM_ID {
        return;
      }
      var at := found.value.roomId;
      var room := FindRoom(at);
      if room.Some? {
        rooms := rooms[at := room.value.(members := room.value.members - {id})];
      }
      sessions := sessions[id := found.value.(roomId := NO_ROOM_ID)];
    }

    method MoveSessionToRoom(id: u32, to: u32)
      modifies this
      ensures View() == InsideRoom(old(View()), id, to)
    {
      var found, room := FindSession(id), FindRoom(to);
      if found.None? || room.None? {
        return;
      }
      if found.value.roomId != NO_ROOM_ID && found.value.roomId != to {
        RemoveSessionFromCurrentRoom(id);
      }
      // both objects may have been updated through the call
      rooms := rooms[to := rooms[to].(members := rooms[to].members + {id})];
      sessions := sessions[id := sessions[id].(roomId := to)];
    }

    method SetLoggedIn(id: u32, name: Bytes)
      modifies this
      ensures View() == WithName(old(View()), id, name)
    {
      var found := FindSession(id);
      if found.None? {
        return;
      }
      sessions := sessions[id := found.value.(loggedIn := true, displayName := name)];
    }

    function FindSession(id: u32): (s: Option<SessionState>)
      reads this
      ensures s.Some? <==> id in sessions
      ensures s.Some? ==> s.value == sessions[id]
    {
      if id in sessions then Some(sessions[id]) else None
    }

    function FindRoom(id: u32): (q: Option<RoomState>)
      reads this
      ensures q.Some? <==> id in rooms
      ensures q.Some? ==> q.value == rooms[id]
    {
      if id in rooms then Some(rooms[id]) else None
    }

    method IsDisplayNameTaken(name: Bytes, except: u32) returns (taken: bool)
      ensures taken == NameTaken(View(), name, except)
    {
      var todo := sessions.Keys;
      while todo != {}
        invariant todo <= sessions.Keys
        invariant forall id :: id in sessions && id !in todo && id != except ==>
                    !(sessions[id].loggedIn && sessions[id].displayName == name)
        decreases |todo|
      {
        var id :| id in todo;
        todo := todo - {id};
        if id == except {
          continue;
        }
        if sessions[id].loggedIn && sessions[id].displayName == name {
          return true;
        }
      }
      return false;
    }

    /** `order` is the order in which the member set happened to be iterated. */
    method GetRoomMembers(roomId: u32, exclude: Option<u32>) returns (members: seq<SessionState>, ghost order: seq<u32>)
      ensures roomId in rooms ==> Enumerates(order, rooms[roomId].members)
      ensures roomId !in rooms ==> order == []
      ensures members == MemberStates(View(), order, exclude)
      ensures StatesOf(View(), members, Found(View(), roomId, exclude))
    {
      members, order := [], [];
      var room := FindRoom(roomId);
      if room.None? {
        return;
      }
      var todo := room.value.members;
      while todo != {}
        invariant todo <= room.value.members
        invariant Enumerates(order, room.value.members - todo)
        invariant members == MemberStates(View(), order, exclude)
        decreases |todo|
      {
        var id :| id in todo;
        todo := todo - {id};
        assert (order + [id])[..|order|] == order;
        order := order + [id];
        if exclude == Some(id) {
          continue;
        }
        var member := FindSession(id);
        if member.Some? {
          members := members + [member.value];
        }
      }
      MembersAreFound(View(), order, exclude, room.value.members);
    }
  }
}
