/**
 * An encoding that meets every assumption made on sizes, encoding and reading: the theorems that use them are not void.
 * Like the program's own, it writes a system message as a room and a text, so different notices may have the same
 * bytes.
 */
module Encodings {
  import opened Bytes
  import opened ServerTypes
  import opened ChatViews
  import opened Integration

  // ----- Parts that can be told apart from what follows them -----

  function Word(x: u32): (s: Bytes)
    ensures |s| == 4
  {
    [x / 0x100_0000, x / 0x1_0000 % 0x100, x / 0x100 % 0x100, x % 0x100]
  }

  lemma WordValue(x: u32)
    ensures var s := Word(x);
            (s[0] as int) * 0x100_0000 + (s[1] as int) * 0x1_0000 + (s[2] as int) * 0x100 + s[3] as int == x
  {
    var a, b, c := x / 0x100_0000, x / 0x1_0000, x / 0x100;
    assert b == c / 0x100 && a == b / 0x100;
    assert x == c * 0x100 + x % 0x100 && c == b * 0x100 + c % 0x100 && b == a * 0x100 + b % 0x100;
  }

  lemma WordsDiffer(x: u32, y: u32, s: Bytes, t: Bytes)
    requires Word(x) + s == Word(y) + t
    ensures x == y && s == t
  {
    WordValue(x);
    WordValue(y);
    assert (Word(x) + s)[..4] == Word(x) && (Word(y) + t)[..4] == Word(y);
    assert (Word(x) + s)[4..] == s && (Word(y) + t)[4..] == t;
  }

  /** A string of up to 255 bytes, its length first. */
  function Name(s: Bytes): Bytes { [|s| % 0x100] + s }

  lemma NamesDiffer(a: Bytes, b: Bytes, s: Bytes, t: Bytes)
    requires |a| < 0x100 && |b| < 0x100 && Name(a) + s == Name(b) + t
    ensures a == b && s == t
  {
    assert (Name(a) + s)[0] == |a| && (Name(b) + t)[0] == |b|;
    assert (Name(a) + s)[1..|a| + 1] == a && (Name(b) + t)[1..|b| + 1] == b;
    assert (Name(a) + s)[|a| + 1..] == s && (Name(b) + t)[|b| + 1..] == t;
  }

  function Bit(b: bool): byte { if b then 1 else 0 }

  function Code(e: ErrorCode): byte {
    match e
    case NoError => 0
    case InvalidName => 1
    case DuplicateName => 2
    case RoomNotFound => 3
    case NotInRoom => 4
    case AlreadyInRoom => 5
  }

  function Room(r: RoomInfo): Bytes { Word(r.roomId) + (Word(r.userCount) + Name(r.roomName)) }

  lemma RoomsDiffer(a: RoomInfo, b: RoomInfo, s: Bytes, t: Bytes)
    requires |a.roomName| < 0x100 && |b.roomName| < 0x100 && Room(a) + s == Room(b) + t
    ensures a == b && s == t
  {
    hide Word, Name;
    assert Room(a) + s == Word(a.roomId) + (Word(a.userCount) + (Name(a.roomName) + s));
    assert Room(b) + t == Word(b.roomId) + (Word(b.userCount) + (Name(b.roomName) + t));
    WordsDiffer(a.roomId, b.roomId, Word(a.userCount) + (Name(a.roomName) + s), Word(b.userCount)
        + (Name(b.roomName) + t));
    WordsDiffer(a.userCount, b.userCount, Name(a.roomName) + s, Name(b.roomName) + t);
    NamesDiffer(a.roomName, b.roomName, s, t);
  }

  function RoomList(rooms: seq<RoomInfo>): Bytes {
    if rooms == [] then [] else Room(rooms[0]) + RoomList(rooms[1..])
  }

  ghost predicate Short(rooms: seq<RoomInfo>) {
    forall i :: 0 <= i < |rooms| ==> |rooms[i].roomName| <= MAX_ROOM_NAME_BYTES
  }

  lemma {:induction false} ListsDiffer(a: seq<RoomInfo>, b: seq<RoomInfo>)
    requires |a| == |b| && Short(a) && Short(b) && RoomList(a) == RoomList(b)
    ensures a == b
  {
    hide Room;
    if a != [] {
      RoomsDiffer(a[0], b[0], RoomList(a[1..]), RoomList(b[1..]));
      ListsDiffer(a[1..], b[1..]);
      assert a == [a[0]] + a[1..] && b == [b[0]] + b[1..];
    }
  }

  lemma {:induction false} ListIsShort(rooms: seq<RoomInfo>)
    requires Short(rooms)
    ensures |RoomList(rooms)| <= 14 * |rooms|
  {
    if rooms != [] {
      ListIsShort(rooms[1..]);
    }
  }

  // ----- Messages -----

  function EncodedUser(user: UserInfo): Bytes { Word(user.userId) + user.displayName }

  function EncodedPayload(p: Payload): Bytes {
    match p
    case LoginResponse(success, error, account) =>
      [1, Bit(success), Code(error)] + (match account case None => [0] case Some(user) => [1] + EncodedUser(user))
    case RoomListResponse(rooms) => [2, |rooms| % 0x100] + RoomList(rooms)
    case JoinRoomResponse(success, error, room) =>
      [3, Bit(success), Code(error)] + (match room case None => [0] case Some(info) => [1] + Room(info))
    case LeaveRoomResponse(success, error) => [4, Bit(success), Code(error)]
    case DisconnectResponse(success, error) => [5, Bit(success), Code(error)]
    case ChatBroadcast(room, sender, name, content) => [6] + (Word(room) + (Word(sender) + (Name(name) + content)))
    case UserJoinedEvent(room, user) => [7] + (Word(room) + EncodedUser(user))
    case UserLeftEvent(room, user) => [8] + (Word(room) + EncodedUser(user))
    case SystemMessage(room, notice) => [9] + (Word(room) + NoticeText(notice))
  }

  function EncodedMessage(m: Message): Bytes { Word(m.requestId) + EncodedPayload(m.payload) }

  lemma UsersDiffer(a: UserInfo, b: UserInfo)
    requires EncodedUser(a) == EncodedUser(b)
    ensures a == b
  {
    WordsDiffer(a.userId, b.userId, a.displayName, b.displayName);
  }

  lemma PayloadsDiffer(a: Payload, b: Payload, rid: u32)
    requires Buildable(Message(rid, a)) && Buildable(Message(rid, b)) && EncodedPayload(a) == EncodedPayload(b)
    ensures a == b || (a.SystemMessage? && b.SystemMessage?)
  {
    hide Word, Name, Room, RoomList, EncodedUser, NoticeText;
    var s, t := EncodedPayload(a), EncodedPayload(b);
    assert s[0] == t[0] && s[1..] == t[1..];
    match a {
      case LoginResponse(_, _, account) =>
        assert s[1] == t[1] && s[2] == t[2] && s[3] == t[3] && s[4..] == t[4..];
        if account.Some? {
          assert s[4..] == EncodedUser(account.value) && t[4..] == EncodedUser(b.account.value);
          UsersDiffer(account.value, b.account.value);
        }
      case RoomListResponse(rooms) =>
        assert s[1] == t[1] && s[2..] == RoomList(rooms) && t[2..] == RoomList(b.rooms);
        ListsDiffer(rooms, b.rooms);
      case JoinRoomResponse(_, _, room) =>
        assert s[1] == t[1] && s[2] == t[2] && s[3] == t[3] && s[4..] == t[4..];
        if room.Some? {
          assert s[4..] + [] == Room(room.value) + [] && t[4..] + [] == Room(b.room.value) + [];
          RoomsDiffer(room.value, b.room.value, [], []);
        }
      case LeaveRoomResponse(_, _) => assert s[1] == t[1] && s[2] == t[2];
      case DisconnectResponse(_, _) => assert s[1] == t[1] && s[2] == t[2];
      case ChatBroadcast(room, sender, name, content) =>
        WordsDiffer(room, b.roomId, Word(sender) + (Name(name) + content), Word(b.senderId)
            + (Name(b.senderName) + b.content));
        WordsDiffer(sender, b.senderId, Name(name) + content, Name(b.senderName) + b.content);
        NamesDiffer(name, b.senderName, content, b.content);
      case UserJoinedEvent(room, user) =>
        WordsDiffer(room, b.roomId, EncodedUser(user), EncodedUser(b.user));
        UsersDiffer(user, b.user);
      case UserLeftEvent(room, user) =>
        WordsDiffer(room, b.roomId, EncodedUser(user), EncodedUser(b.user));
        UsersDiffer(user, b.user);
      case SystemMessage(_, _) =>
    }
  }

  lemma MessagesDiffer(a: Message, b: Message)
    requires Buildable(a) && Buildable(b) && EncodedMessage(a) == EncodedMessage(b)
    ensures SameToClient(a, b)
  {
    hide EncodedPayload, Word;
    WordsDiffer(a.requestId, b.requestId, EncodedPayload(a.payload), EncodedPayload(b.payload));
    PayloadsDiffer(a.payload, b.payload, a.requestId);
  }

  lemma EncodingIsSmall(m: Message)
    requires Buildable(m)
    ensures 0 < |EncodedMessage(m)| <= ENCODING_OVERHEAD + StringBytes(m.payload)
  {
    if m.payload.RoomListResponse? {
      ListIsShort(m.payload.rooms);
    }
  }

  ghost function ReadBack(s: Bytes): Message {
    if m :| Buildable(m) && EncodedMessage(m) == s then m else Message(0, LeaveRoomResponse(true, NoError))
  }

  /** The assumptions can all be met at once. */
  lemma AssumptionsAreConsistent()
    ensures exists size: Message -> nat, encode: Encoder, read: Reading ::
              EncodingBounded(size) && Sized(size, encode) && Readable(encode, read)
  {
    var size: Message -> nat := m => |EncodedMessage(m)|;
    forall m | Buildable(m)
      ensures 0 < size(m) <= ENCODING_OVERHEAD + StringBytes(m.payload)
      ensures SameToClient(ReadBack(EncodedMessage(m)), m)
    {
      EncodingIsSmall(m);
      MessagesDiffer(ReadBack(EncodedMessage(m)), m);
    }
    assert EncodingBounded(size) && Sized(size, EncodedMessage) && Readable(EncodedMessage, ReadBack);
  }
}
