/** Frame construction in pooled buffers, against an encoder that allocates nothing. */
module Frames {
  import opened Bytes
  import opened Codec
  import opened BufferPools

  /** The announced size is the payload's size cut to 32 bits, and so many bytes are copied. */
  function EncodeFrame(flags: byte, payload: Bytes): Bytes {
    var size := |payload| % 0x1_0000_0000;
    if HEADER_SIZE + size > BLOCK_SIZE then [] else HeaderBytes(flags, size) + payload[..size]
  }

  function EncodeDataFrame(payload: Bytes): Bytes {
    if payload == [] then [] else EncodeFrame(0, payload)
  }

  /**
   * The builder yields a frame that carries the payload exactly for the sizes the callers check for. Outside
   * them: a frame no reader accepts exactly at the positive multiples of 2^32, a frame with a cut payload exactly
   * when the size modulo 2^32 is a legal one, and no frame at all otherwise.
   */
  lemma BuilderIsFaithfulExactlyInBounds(payload: Bytes)
    ensures var frame, size := EncodeDataFrame(payload), |payload| % 0x1_0000_0000;
            && ((Legal(frame) && frame[HEADER_SIZE..] == payload) <==> SendablePayload(payload))
            && (SendablePayload(payload) ==> frame == DataFrame(payload))
            && ((frame != [] && !Legal(frame)) <==> (payload != [] && size == 0))
            && ((Legal(frame) && frame[HEADER_SIZE..] != payload)
                <==> (1 <= size <= MAX_PAYLOAD_SIZE && |payload| > MAX_PAYLOAD_SIZE))
  {
    var frame, size := EncodeDataFrame(payload), |payload| % 0x1_0000_0000;
    if payload != [] && size <= MAX_PAYLOAD_SIZE {
      assert frame[..HEADER_SIZE] == HeaderBytes(0, size) && frame[HEADER_SIZE..] == payload[..size];
      WriteThenRead(0, size);
      if |payload| <= MAX_PAYLOAD_SIZE {
        assert payload[..size] == payload;
      }
    }
  }

  /** The keepalive builder's frame is the one keepalive frame there is. */
  lemma KeepaliveIsEncoded()
    ensures EncodeFrame(FLAG_KEEPALIVE, []) == KEEPALIVE_FRAME && Legal(KEEPALIVE_FRAME)
  {
    KeepaliveLegal();
    assert EncodeFrame(FLAG_KEEPALIVE, []) == HeaderBytes(FLAG_KEEPALIVE, 0) + [];
  }

  /** Same bytes as the encoder, whatever the pool held and whatever the recycled buffer held before. */
  method BuildFrame(pool: BufferPool, flags: byte, payload: Bytes, reserved: nat) returns (frame: Buffer)
    requires pool.thread.Valid() && reserved >= BLOCK_SIZE
    modifies pool.thread, pool.thread.buffers, set b | b in pool.thread.buffers :: b.storage
    ensures pool.thread.Valid() && frame.Valid() && pool.thread.Apart(frame)
    ensures pool.thread.buffers <= old(pool.thread.buffers)
            && (frame in old(pool.thread.buffers) || (fresh(frame) && fresh(frame.storage)))
    ensures frame.Contents() == EncodeFrame(flags, payload)
  {
    var size: u32 := |payload| % 0x1_0000_0000;
    frame := pool.Acquire(HEADER_SIZE + size, reserved);
    if frame.len == 0 {
      return;
    }
    WriteHeader(frame.storage, flags, size);
    assert frame.Contents()[..HEADER_SIZE] == HeaderBytes(flags, size);
    if payload != [] {
      frame.CopyIn(HEADER_SIZE, payload[..size]);
    }
  }

  method BuildDataFrame(pool: BufferPool, payload: Bytes, reserved: nat) returns (frame: Buffer)
    requires pool.thread.Valid() && reserved >= BLOCK_SIZE
    modifies pool.thread, pool.thread.buffers, set b | b in pool.thread.buffers :: b.storage
    ensures pool.thread.Valid() && frame.Valid() && pool.thread.Apart(frame)
    ensures pool.thread.buffers <= old(pool.thread.buffers)
            && (frame in old(pool.thread.buffers) || (fresh(frame) && fresh(frame.storage)))
    ensures frame.Contents() == EncodeDataFrame(payload)
  {
    if payload == [] {
      frame := new Buffer(0);
      return;
    }
    frame := BuildFrame(pool, 0, payload, reserved);
  }

  method BuildKeepaliveFrame(pool: BufferPool, reserved: nat) returns (frame: Buffer)
    requires pool.thread.Valid() && reserved >= BLOCK_SIZE
    modifies pool.thread, pool.thread.buffers, set b | b in pool.thread.buffers :: b.storage
    ensures pool.thread.Valid() && frame.Valid() && pool.thread.Apart(frame)
    ensures pool.thread.buffers <= old(pool.thread.buffers)
            && (frame in old(pool.thread.buffers) || (fresh(frame) && fresh(frame.storage)))
    ensures frame.Contents() == KEEPALIVE_FRAME
  {
    KeepaliveIsEncoded();
    frame := BuildFrame(pool, FLAG_KEEPALIVE, [], reserved);
  }

  /** A template that fits a block is copied byte for byte; a larger one gives no frame. */
  method CloneFrame(pool: BufferPool, template: Buffer, reserved: nat) returns (frame: Buffer)
    requires pool.thread.Valid() && reserved >= BLOCK_SIZE
    requires template.Valid() && pool.thread.Apart(template)
    modifies pool.thread, pool.thread.buffers, set b | b in pool.thread.buffers :: b.storage
    ensures pool.thread.Valid() && frame.Valid() && pool.thread.Apart(frame) && frame != template
            && frame.storage != template.storage
    ensures pool.thread.buffers <= old(pool.thread.buffers)
            && (frame in old(pool.thread.buffers) || (fresh(frame) && fresh(frame.storage)))
    ensures template.Valid() && template.Contents() == old(template.Contents()) && pool.thread.Apart(template)
    ensures frame.Contents() == if template.len <= BLOCK_SIZE then old(template.Contents()) else []
  {
    if template.len == 0 {
      frame := new Buffer(0);
      return;
    }
    frame := pool.Acquire(template.len, reserved);
    if frame.len == 0 {
      return;
    }
    frame.CopyIn(0, template.Contents());
  }

  /** Frames held outside the pool, no two sharing anything, all with the same bytes. */
  ghost predicate Copies(thread: ThreadPool, frames: seq<Buffer>, bytes: Bytes)
    reads thread, frames, set f | f in frames :: f.storage
  {
    && (forall i :: 0 <= i < |frames| ==> frames[i].Valid() && frames[i].Contents() == bytes && thread.Apart(frames[i]))
    && Disjoint(frames)
  }

  ghost predicate Disjoint(frames: seq<Buffer>) {
    forall i, j :: 0 <= i < j < |frames| ==> frames[i] != frames[j] && frames[i].storage != frames[j].storage
  }

  /** One frame more: the first of `frames` is the template. */
  method CloneFirst(pool: BufferPool, frames: seq<Buffer>, bytes: Bytes, reserved: nat) returns (more: seq<Buffer>)
    requires pool.thread.Valid() && reserved >= BLOCK_SIZE && |bytes| <= BLOCK_SIZE
    requires frames != [] && Copies(pool.thread, frames, bytes)
    modifies pool.thread, pool.thread.buffers, set b | b in pool.thread.buffers :: b.storage
    ensures pool.thread.Valid() && Copies(pool.thread, more, bytes)
    ensures pool.thread.buffers <= old(pool.thread.buffers)
    ensures |more| == |frames| + 1 && more[..|frames|] == frames
  {
    var frame := CloneFrame(pool, frames[0], reserved);
    forall i | 0 <= i < |frames|
      ensures frames[i].Valid() && frames[i].Contents() == bytes && pool.thread.Apart(frames[i])
      ensures frames[i] != frame && frames[i].storage != frame.storage
    {
      assert old(pool.thread.Apart(frames[i]));
    }
    more := frames + [frame];
  }

  /**
   * The frames of a broadcast: one template, a clone for each of `count` sessions, and the template given back. The
   * clones have the encoder's bytes and are apart from each other and from everything pooled.
   */
  method BroadcastFrames(pool: BufferPool, payload: Bytes, count: nat, reserved: nat) returns (clones: seq<Buffer>)
    requires pool.thread.Valid() && reserved >= BLOCK_SIZE
    modifies pool.thread, pool.thread.buffers, set b | b in pool.thread.buffers :: b.storage
    ensures pool.thread.Valid() && Copies(pool.thread, clones, EncodeDataFrame(payload))
    ensures |clones| == if EncodeDataFrame(payload) == [] then 0 else count
  {
    var template := BuildDataFrame(pool, payload, reserved);
    if template.len == 0 {
      return [];
    }
    DataFramesFit(payload);
    var frames := [template];
    while |frames| < count + 1
      invariant 1 <= |frames| <= count + 1 && frames[0] == template
      invariant pool.thread.Valid() && pool.thread.buffers <= old(pool.thread.buffers)
      invariant Copies(pool.thread, frames, EncodeDataFrame(payload))
      decreases count + 1 - |frames|
    {
      hide Copies;
      frames := CloneFirst(pool, frames, EncodeDataFrame(payload), reserved);
    }
    ReleaseFirst(pool, frames, EncodeDataFrame(payload));
    clones := frames[1..];
  }

  /** The template goes back to the pool; the clones stay apart from it. */
  method ReleaseFirst(pool: BufferPool, frames: seq<Buffer>, bytes: Bytes)
    requires pool.thread.Valid() && frames != [] && Copies(pool.thread, frames, bytes)
    modifies pool.thread, frames[0]
    ensures pool.thread.Valid() && Copies(pool.thread, frames[1..], bytes)
  {
    pool.Release(frames[0]);
    forall i | 1 <= i < |frames|
      ensures frames[i].Valid() && frames[i].Contents() == bytes && pool.thread.Apart(frames[i])
    {
      assert frames[0] != frames[i] && frames[0].storage != frames[i].storage && old(pool.thread.Apart(frames[i]));
    }
  }

  lemma DataFramesFit(payload: Bytes)
    ensures |EncodeDataFrame(payload)| <= BLOCK_SIZE
  {
  }
}
