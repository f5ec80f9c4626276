/** The 8-byte wire header and the frames built from it. */
module Codec {
  import opened Bytes

  const MAGIC := 0x4E4E
  const VERSION: byte := 1
  const FLAG_KEEPALIVE: byte := 1
  const HEADER_SIZE := 8
  const MAX_PAYLOAD_SIZE := 2048
  const BLOCK_SIZE := HEADER_SIZE + MAX_PAYLOAD_SIZE

  datatype Header = Header(magic: int, version: byte, flags: byte, payloadSize: int) {
    // bit 0 of the flags byte
    predicate IsKeepalive() { flags % 2 == 1 }
  }

  datatype HeaderError = InvalidMagic | UnsupportedVersion | InvalidFlags | InvalidPayloadSize

  datatype Decoded = Ok(header: Header) | Err(error: HeaderError)

  function ReadU16(s: Bytes, at: nat): int
    requires at + 2 <= |s|
  {
    (s[at] as int) * 0x100 + s[at + 1] as int
  }

  function ReadU32(s: Bytes, at: nat): int
    requires at + 4 <= |s|
  {
    (s[at] as int) * 0x100_0000 + (s[at + 1] as int) * 0x1_0000 + (s[at + 2] as int) * 0x100 + s[at + 3] as int
  }

  /** What write_header leaves in the eight bytes it writes. */
  function HeaderBytes(flags: byte, size: u32): (h: Bytes)
    ensures |h| == HEADER_SIZE
  {
    [0x4E, 0x4E, VERSION, flags,
     size / 0x100_0000, size / 0x1_0000 % 0x100, size / 0x100 % 0x100, size % 0x100]
  }

  /** The writer, storing byte by byte into the caller's buffer. */
  method WriteHeader(output: array<byte>, flags: byte, size: u32)
    requires HEADER_SIZE <= output.Length
    modifies output
    ensures output[..HEADER_SIZE] == HeaderBytes(flags, size)
    ensures output[HEADER_SIZE..] == old(output[HEADER_SIZE..])
  {
    output[0] := MAGIC / 0x100;
    output[1] := MAGIC % 0x100;
    output[2] := VERSION;
    output[3] := flags;
    output[4] := size / 0x100_0000;
    output[5] := size / 0x1_0000 % 0x100;
    output[6] := size / 0x100 % 0x100;
    output[7] := size % 0x100;
  }

  /** The checks are made in the source's order; the known-flags mask is bit 0 alone. */
  function DecodeHeader(input: Bytes): Decoded
    requires HEADER_SIZE <= |input|
  {
    var header := Header(ReadU16(input, 0), input[2], input[3], ReadU32(input, 4));
    if header.magic != MAGIC then Err(InvalidMagic)
    else if header.version != VERSION then Err(UnsupportedVersion)
    else if header.flags / 2 != 0 then Err(InvalidFlags)
    else if header.payloadSize > MAX_PAYLOAD_SIZE then Err(InvalidPayloadSize)
    else if header.IsKeepalive() then
      if header.payloadSize != 0 then Err(InvalidPayloadSize) else Ok(header)
    else if header.payloadSize == 0 then Err(InvalidPayloadSize)
    else Ok(header)
  }

  /** The (flags, size) pairs a peer may announce. */
  predicate LegalPair(flags: int, size: int) {
    (flags == 0 && 1 <= size <= MAX_PAYLOAD_SIZE) || (flags == 1 && size == 0)
  }

  lemma WriteThenRead(flags: byte, size: u32)
    ensures ReadU16(HeaderBytes(flags, size), 0) == MAGIC
    ensures ReadU32(HeaderBytes(flags, size), 4) == size
  {
    var a, b, c := size / 0x100_0000, size / 0x1_0000, size / 0x100;
    assert c == size / 0x100 && b == c / 0x100 && a == b / 0x100;
    assert size == c * 0x100 + size % 0x100;
    assert c == b * 0x100 + c % 0x100;
    assert b == a * 0x100 + b % 0x100;
  }

  lemma Digits(a: byte, b: byte, c: byte, d: byte)
    ensures var n := (a as int) * 0x100_0000 + (b as int) * 0x1_0000 + (c as int) * 0x100 + d as int;
            && 0 <= n < 0x1_0000_0000
            && n / 0x100_0000 == a && n / 0x1_0000 % 0x100 == b && n / 0x100 % 0x100 == c && n % 0x100 == d
  {
    var n := (a as int) * 0x100_0000 + (b as int) * 0x1_0000 + (c as int) * 0x100 + d as int;
    assert n / 0x100 == (a as int) * 0x1_0000 + (b as int) * 0x100 + c as int;
    assert n / 0x1_0000 == (a as int) * 0x100 + b as int;
  }

  lemma ReadThenWrite(s: Bytes)
    requires |s| == HEADER_SIZE && ReadU16(s, 0) == MAGIC && s[2] == VERSION
    ensures 0 <= ReadU32(s, 4) < 0x1_0000_0000
    ensures s == HeaderBytes(s[3], ReadU32(s, 4))
  {
    Digits(s[4], s[5], s[6], s[7]);
  }

  /** A header is accepted exactly when it is the image of a legal pair, and the pair is read back. */
  lemma DecodeAcceptsExactlyWrittenHeaders(s: Bytes)
    requires |s| == HEADER_SIZE
    ensures DecodeHeader(s).Ok? <==>
            exists flags: byte, size: u32 :: LegalPair(flags, size) && s == HeaderBytes(flags, size)
    ensures forall flags: byte, size: u32 ::
              LegalPair(flags, size) && s == HeaderBytes(flags, size)
              ==> DecodeHeader(s) == Ok(Header(MAGIC, VERSION, flags, size))
  {
    if DecodeHeader(s).Ok? {
      ReadThenWrite(s);
      assert LegalPair(s[3], ReadU32(s, 4));
    }
    forall flags: byte, size: u32 | LegalPair(flags, size) && s == HeaderBytes(flags, size)
      ensures DecodeHeader(s) == Ok(Header(MAGIC, VERSION, flags, size))
    {
      WriteThenRead(flags, size);
    }
  }

  lemma AcceptedSize(s: Bytes)
    requires HEADER_SIZE <= |s| && DecodeHeader(s).Ok?
    ensures 0 <= DecodeHeader(s).header.payloadSize <= MAX_PAYLOAD_SIZE
  {
  }

  /** Which error a refused header is refused with: the first of magic, version, flags and size that is wrong. */
  lemma ErrorsExactly(s: Bytes)
    requires |s| == HEADER_SIZE
    ensures var d, size := DecodeHeader(s), ReadU32(s, 4);
            && (d == Err(InvalidMagic) <==> s[..2] != [0x4E, 0x4E])
            && (d == Err(UnsupportedVersion) <==> s[..2] == [0x4E, 0x4E] && s[2] != 1)
            && (d == Err(InvalidFlags) <==> s[..3] == [0x4E, 0x4E, 1] && s[3] > 1)
            && (d == Err(InvalidPayloadSize) <==>
                s[..3] == [0x4E, 0x4E, 1] && s[3] <= 1 && !(if s[3] == 1 then size == 0 else 1 <= size <= 2048))
  {
    assert s[..3] == s[..2] + [s[2]] && s[..2] == [s[0], s[1]];
    assert ReadU16(s, 0) == 0x4E4E <==> s[0] == 0x4E && s[1] == 0x4E;
    assert 0 <= ReadU32(s, 4);
  }

  /** A frame: a header the decoder accepts, followed by exactly the payload it announces. */
  predicate Legal(frame: Bytes) {
    && HEADER_SIZE <= |frame|
    && var d := DecodeHeader(frame[..HEADER_SIZE]);
    && d.Ok? && |frame| == HEADER_SIZE + d.header.payloadSize
  }

  function DataFrame(payload: Bytes): Bytes
    requires |payload| <= MAX_PAYLOAD_SIZE
  {
    HeaderBytes(0, |payload|) + payload
  }

  const KEEPALIVE_FRAME: Bytes := HeaderBytes(FLAG_KEEPALIVE, 0)

  predicate SendablePayload(payload: Bytes) {
    1 <= |payload| <= MAX_PAYLOAD_SIZE
  }

  predicate IsData(frame: Bytes) { HEADER_SIZE < |frame| }

  lemma DataFrameLegal(payload: Bytes)
    requires SendablePayload(payload)
    ensures Legal(DataFrame(payload)) && IsData(DataFrame(payload))
    ensures DataFrame(payload)[HEADER_SIZE..] == payload
  {
    var frame := DataFrame(payload);
    assert frame[..HEADER_SIZE] == HeaderBytes(0, |payload|);
    WriteThenRead(0, |payload|);
  }

  lemma KeepaliveLegal()
    ensures Legal(KEEPALIVE_FRAME) && !IsData(KEEPALIVE_FRAME)
  {
    WriteThenRead(FLAG_KEEPALIVE, 0);
    assert KEEPALIVE_FRAME[..HEADER_SIZE] == KEEPALIVE_FRAME;
  }

  /** The legal frames are the keepalive frame and the data frames, and nothing else. */
  lemma LegalFramesAreEncodings(frame: Bytes)
    requires Legal(frame)
    ensures IsData(frame) ==> SendablePayload(frame[HEADER_SIZE..]) && frame == DataFrame(frame[HEADER_SIZE..])
    ensures !IsData(frame) ==> frame == KEEPALIVE_FRAME
  {
    var head := frame[..HEADER_SIZE];
    ReadThenWrite(head);
    assert frame == head + frame[HEADER_SIZE..];
  }

  /** No frame is a proper prefix of another. */
  lemma FramesArePrefixFree(a: Bytes, b: Bytes, s: Bytes, t: Bytes)
    requires Legal(a) && Legal(b) && a + s <= b + t
    ensures a == b && s <= t
  {
    assert a[..HEADER_SIZE] == (a + s)[..HEADER_SIZE] == (b + t)[..HEADER_SIZE] == b[..HEADER_SIZE];
    assert a == (a + s)[..|a|] == (b + t)[..|a|] == b;
    assert s == (a + s)[|a|..] && t == (b + t)[|a|..];
    assert (a + s)[|a|..] <= (b + t)[|a|..];
  }

  /** The payloads of the data frames, in order; keepalives carry none. */
  function DataOf(frames: seq<Bytes>): seq<Bytes> {
    if frames == [] then [] else
      var last := frames[|frames| - 1];
      DataOf(frames[..|frames| - 1]) + (if IsData(last) then [last[HEADER_SIZE..]] else [])
  }

  lemma {:induction false} DataOfConcat(a: seq<Bytes>, b: seq<Bytes>)
    ensures DataOf(a + b) == DataOf(a) + DataOf(b)
  {
    if b == [] {
      assert a + b == a;
    } else {
      DataOfConcat(a, b[..|b| - 1]);
      assert (a + b)[..|a + b| - 1] == a + b[..|b| - 1];
    }
  }

  lemma DataOfPrefix(a: seq<Bytes>, b: seq<Bytes>)
    requires a <= b
    ensures DataOf(a) <= DataOf(b)
  {
    DataOfConcat(a, b[|a|..]);
    assert b == a + b[|a|..];
  }
}
