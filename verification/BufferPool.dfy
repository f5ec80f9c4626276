/** Recycled byte buffers, and the frames built in them. */
module BufferPools {
  import opened Bytes
  import opened Codec

  /** A byte vector: storage of fixed capacity, of which the first `len` bytes are in use. */
  class Buffer {
    const storage: array<byte>
    var len: nat

    predicate Valid()
      reads this
    {
      len <= storage.Length
    }

    function Contents(): Bytes
      reads this, storage
      requires Valid()
    {
      storage[..len]
    }

    constructor (capacity: nat)
      ensures Valid() && len == 0 && storage.Length == capacity && fresh(storage)
    {
      storage := new byte[capacity];
      len := 0;
    }

    /** Keeps the bytes in use that still fit, and fills up with zeros. */
    method Resize(n: nat)
      requires Valid() && n <= storage.Length
      modifies this, storage
      ensures Valid() && len == n
      ensures Contents() == if n <= old(len) then old(Contents())[..n] else old(Contents()) + seq(n - old(len), _ => 0)
    {
      ghost var was := Contents();
      var k := len;
      while k < n
        invariant len <= k && (k <= n || k == len) && len <= storage.Length
        invariant storage[..len] == was
        invariant forall i :: len <= i < k ==> storage[i] == 0
        invariant len == old(len)
      {
        storage[k] := 0;
        k := k + 1;
      }
      len := n;
      assert forall i :: 0 <= i < n ==> storage[..n][i] == if i < |was| then was[i] else 0;
    }

    method Clear()
      modifies this
      ensures Valid() && len == 0
    {
      len := 0;
    }

    /** Copies `bytes` over the bytes in use, from `at` on. */
    method CopyIn(at: nat, bytes: Bytes)
      requires Valid() && at + |bytes| <= len
      modifies storage
      ensures Contents() == old(Contents())[..at] + bytes + old(Contents())[at + |bytes|..]
    {
      var k := 0;
      while k < |bytes|
        invariant 0 <= k <= |bytes|
        invariant forall i :: at <= i < at + k ==> storage[i] == bytes[i - at]
        invariant forall i :: 0 <= i < len && !(at <= i < at + k) ==> storage[i] == old(storage[i])
      {
        storage[at + k] := bytes[k];
        k := k + 1;
      }
    }
  }

  // ----- The size of a thread's pool, over any history -----

  /** A release names the limit of the BufferPool it goes through and the capacity of the buffer. */
  datatype PoolCall = Acquired(size: nat) | Released(limit: nat, capacity: nat)

  function SizeAfter(calls: seq<PoolCall>): nat {
    if calls == [] then 0
    else
      var n := SizeAfter(calls[..|calls| - 1]);
      match calls[|calls| - 1]
      case Acquired(size) => if size <= BLOCK_SIZE && n > 0 then n - 1 else n
      case Released(limit, capacity) => if capacity == BLOCK_SIZE && n < limit then n + 1 else n
  }

  /** The pool outgrows no bound that covers the limits of all the pools that released into it. */
  lemma {:induction false} PoolStaysWithinLimits(calls: seq<PoolCall>, bound: nat)
    requires forall c :: c in calls && c.Released? ==> c.limit <= bound
    ensures SizeAfter(calls) <= bound
  {
    if calls != [] {
      PoolStaysWithinLimits(calls[..|calls| - 1], bound);
    }
  }

  // ----- The pool -----

  /** The buffers of one thread, shared by every BufferPool used on it. */
  class ThreadPool {
    var buffers: seq<Buffer>
    ghost var calls: seq<PoolCall>

    /**
     * Every pooled buffer is empty, has exactly the block capacity, is pooled once and shares its storage with none.
     */
    ghost predicate Valid()
      reads this, buffers
    {
      && (forall b :: b in buffers ==> b.len == 0 && b.storage.Length == BLOCK_SIZE)
      && (forall i, j :: 0 <= i < j < |buffers| ==>
            buffers[i] != buffers[j] && buffers[i].storage != buffers[j].storage)
      && |buffers| == SizeAfter(calls)
    }

    /** The buffer and its storage belong to somebody outside the pool. */
    ghost predicate Apart(buf: Buffer)
      reads this
    {
      forall i :: 0 <= i < |buffers| ==> buffers[i] != buf && buffers[i].storage != buf.storage
    }

    constructor ()
      ensures Valid() && buffers == [] && calls == []
    {
      buffers := [];
      calls := [];
    }
  }

  class BufferPool {
    const maxSizePerThread: nat
    const thread: ThreadPool

    constructor (thread: ThreadPool, maxSizePerThread: nat)
      ensures this.thread == thread && this.maxSizePerThread == maxSizePerThread
    {
      this.thread := thread;
      this.maxSizePerThread := maxSizePerThread;
    }

    /**
     * `reserved` is the capacity the allocator gives to a new buffer. The most recently released buffer comes first.
     */
    method Acquire(size: nat, reserved: nat) returns (buf: Buffer)
      requires thread.Valid() && reserved >= BLOCK_SIZE
      modifies thread, thread.buffers, set b | b in thread.buffers :: b.storage
      ensures thread.Valid() && buf.Valid() && thread.Apart(buf)
              && (buf in old(thread.buffers) || (fresh(buf) && fresh(buf.storage)))
      ensures thread.buffers <= old(thread.buffers)
      ensures thread.calls == old(thread.calls) + [Acquired(size)]
      ensures size > BLOCK_SIZE ==> buf.Contents() == [] && fresh(buf) && thread.buffers == old(thread.buffers)
      ensures size <= BLOCK_SIZE ==> buf.Contents() == seq(size, _ => 0) && buf.storage.Length >= BLOCK_SIZE
      ensures size <= BLOCK_SIZE && old(thread.buffers) != [] ==>
                thread.buffers + [buf] == old(thread.buffers) && buf.storage.Length == BLOCK_SIZE
      ensures size <= BLOCK_SIZE && old(thread.buffers) == [] ==>
                thread.buffers == [] && fresh(buf) && fresh(buf.storage) && buf.storage.Length == reserved
    {
      assert (thread.calls + [Acquired(size)])[..|thread.calls|] == thread.calls;
      thread.calls := thread.calls + [Acquired(size)];
      if size > BLOCK_SIZE {
        buf := new Buffer(0);
        return;
      }
      if thread.buffers != [] {
        var last := |thread.buffers| - 1;
        buf := thread.buffers[last];
        thread.buffers := thread.buffers[..last];
      } else {
        buf := new Buffer(reserved);
      }
      assert buf.Contents() == [];
      assert thread.Apart(buf) && thread.Valid();
      buf.Resize(size);
    }

    /** The caller gives the buffer up. */
    method Release(buf: Buffer)
      requires thread.Valid() && thread.Apart(buf)
      modifies thread, buf
      ensures thread.Valid()
      ensures thread.calls == old(thread.calls) + [Released(maxSizePerThread, buf.storage.Length)]
      ensures thread.buffers == old(thread.buffers)
                                + if buf.storage.Length == BLOCK_SIZE
                                    && |old(thread.buffers)| < maxSizePerThread then [buf] else []
    {
      assert (thread.calls + [Released(maxSizePerThread, buf.storage.Length)])[..|thread.calls|] == thread.calls;
      thread.calls := thread.calls + [Released(maxSizePerThread, buf.storage.Length)];
      if buf.storage.Length != BLOCK_SIZE {
        return;
      }
      if |thread.buffers| < maxSizePerThread {
        buf.Clear();
        thread.buffers := thread.buffers + [buf];
      }
    }
  }
}
