/** Sessions, rooms, events and messages of the chat server. */
module ServerTypes {
  import opened Bytes

  const NO_ROOM_ID: u32 := 0

  datatype SessionState = SessionState(
    sessionId: u32, userId: u32, displayName: Bytes, roomId: u32, loggedIn: bool)

  datatype RoomState = RoomState(roomId: u32, roomName: Bytes, members: set<u32>)

  datatype Event =
    | SessionConnected(sessionId: u32)
    | SessionDisconnected(sessionId: u32)
    | InvalidPacket(sessionId: u32, message: Bytes)
    | LoginRequest(sessionId: u32, requestId: u32, displayName: Bytes)
    | RoomListRequest(sessionId: u32, requestId: u32)
    | JoinRoomRequest(sessionId: u32, requestId: u32, roomId: u32)
    | ChatSendRequest(sessionId: u32, requestId: u32, content: Bytes)
    | LeaveRoomRequest(sessionId: u32, requestId: u32)
    | DisconnectRequest(sessionId: u32, requestId: u32)

  datatype ErrorCode = NoError | InvalidName | DuplicateName | RoomNotFound | NotInRoom | AlreadyInRoom

  datatype UserInfo = UserInfo(userId: u32, displayName: Bytes)
  datatype RoomInfo = RoomInfo(roomId: u32, roomName: Bytes, userCount: u32)

  /** What system messages are about; on the wire they are texts, all but the first two fixed. */
  datatype Notice = Rejected(message: Bytes) | Entered(roomName: Bytes) | JoinFirst | EmptyChat | ChatTooLong | Departed

  // the fixed texts, in UTF-8
  const ENTERED_TEXT: Bytes := [
    0x20, 0xEB, 0xB0, 0xA9, 0xEC, 0x97, 0x90, 0x20, 0xEC, 0x9E, 0x85, 0xEC, 0x9E, 0xA5, 0xED, 0x96, 0x88, 0xEC,
    0x8A, 0xB5, 0xEB, 0x8B, 0x88, 0xEB, 0x8B, 0xA4, 0x2E]
  const JOIN_FIRST_TEXT: Bytes := [
    0xEC, 0xB1, 0x84, 0xED, 0x8C, 0x85, 0xEC, 0x9D, 0x84, 0x20, 0xEB, 0xB3, 0xB4, 0xEB, 0x82, 0xB4, 0xEA, 0xB8,
    0xB0, 0x20, 0xEC, 0xA0, 0x84, 0xEC, 0x97, 0x90, 0x20, 0xEB, 0xA8, 0xBC, 0xEC, 0xA0, 0x80, 0x20, 0xEB, 0xB0,
    0xA9, 0xEC, 0x97, 0x90, 0x20, 0xEC, 0x9E, 0x85, 0xEC, 0x9E, 0xA5, 0xED, 0x95, 0xB4, 0xEC, 0x95, 0xBC, 0x20,
    0xED, 0x95, 0xA9, 0xEB, 0x8B, 0x88, 0xEB, 0x8B, 0xA4, 0x2E]
  const EMPTY_CHAT_TEXT: Bytes := [
    0xEB, 0xB9, 0x88, 0x20, 0xEB, 0xA9, 0x94, 0xEC, 0x8B, 0x9C, 0xEC, 0xA7, 0x80, 0xEB, 0x8A, 0x94, 0x20, 0xEC,
    0xA0, 0x84, 0xEC, 0x86, 0xA1, 0xED, 0x95, 0xA0, 0x20, 0xEC, 0x88, 0x98, 0x20, 0xEC, 0x97, 0x86, 0xEC, 0x8A,
    0xB5, 0xEB, 0x8B, 0x88, 0xEB, 0x8B, 0xA4, 0x2E]
  const CHAT_TOO_LONG_TEXT: Bytes := [
    0xEB, 0xA9, 0x94, 0xEC, 0x8B, 0x9C, 0xEC, 0xA7, 0x80, 0xEA, 0xB0, 0x80, 0x20, 0xEB, 0x84, 0x88, 0xEB, 0xAC,
    0xB4, 0x20, 0xEA, 0xB9, 0x81, 0xEB, 0x8B, 0x88, 0xEB, 0x8B, 0xA4, 0x2E]
  const DEPARTED_TEXT: Bytes := [
    0xEB, 0xB0, 0xA9, 0xEC, 0x97, 0x90, 0xEC, 0x84, 0x9C, 0x20, 0xED, 0x87, 0xB4, 0xEC, 0x9E, 0xA5, 0xED, 0x96,
    0x88, 0xEC, 0x8A, 0xB5, 0xEB, 0x8B, 0x88, 0xEB, 0x8B, 0xA4, 0x2E]

  function NoticeText(n: Notice): Bytes {
    match n
    case Rejected(message) => message
    case Entered(roomName) => roomName + ENTERED_TEXT
    case JoinFirst => JOIN_FIRST_TEXT
    case EmptyChat => EMPTY_CHAT_TEXT
    case ChatTooLong => CHAT_TOO_LONG_TEXT
    case Departed => DEPARTED_TEXT
  }

  datatype Payload =
    | LoginResponse(success: bool, error: ErrorCode, account: Option<UserInfo>)
    | RoomListResponse(rooms: seq<RoomInfo>)
    | JoinRoomResponse(success: bool, error: ErrorCode, room: Option<RoomInfo>)
    | LeaveRoomResponse(success: bool, error: ErrorCode)
    | DisconnectResponse(success: bool, error: ErrorCode)
    | ChatBroadcast(roomId: u32, senderId: u32, senderName: Bytes, content: Bytes)
    | UserJoinedEvent(roomId: u32, user: UserInfo)
    | UserLeftEvent(roomId: u32, user: UserInfo)
    | SystemMessage(roomId: u32, notice: Notice)

  datatype Message = Message(requestId: u32, payload: Payload)

  datatype OutgoingMessage = OutgoingMessage(sessionId: u32, message: Message)

  /** Strings cross into messages through c_str(): everything from the first NUL byte on is lost. */
  function CStr(s: Bytes): Bytes {
    if s == [] || s[0] == 0 then [] else [s[0]] + CStr(s[1..])
  }

  function InfoOf(session: SessionState): UserInfo {
    UserInfo(session.userId, CStr(session.displayName))
  }

  /** The number of members is cast to 32 bits. */
  function RoomInfoOf(room: RoomState): RoomInfo {
    RoomInfo(room.roomId, CStr(room.roomName), |room.members| % 0x1_0000_0000)
  }

  lemma {:induction false} CStrShortens(s: Bytes)
    ensures CStr(s) <= s && 0 !in CStr(s)
  {
    if s != [] && s[0] != 0 {
      CStrShortens(s[1..]);
      assert s == [s[0]] + s[1..];
    }
  }

  lemma {:induction false} CStrKeepsNulFree(s: Bytes)
    requires 0 !in s
    ensures CStr(s) == s
  {
    if s != [] {
      CStrKeepsNulFree(s[1..]);
    }
  }
}
