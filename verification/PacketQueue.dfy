/** The bounded hand-off queue between the I/O threads and the game thread. */
module PacketQueue {
  import opened Bytes

  const PACKET_QUEUE_CAPACITY := 8192

  datatype Packet = Connect(id: u32) | Disconnect(id: u32) | Data(id: u32, payload: Bytes)

  /** History: `offered` to push_packet, `polled` by the game thread, `refused` because of shutdown. */
  datatype Inbox = Inbox(
    queue: seq<Packet>, dropped: nat, stopping: bool,
    offered: seq<Packet>, polled: seq<Packet>, refused: nat)
  {
    /** Every packet that got through so far, in order. */
    function Stream(): seq<Packet> { polled + queue }
  }

  const EmptyInbox := Inbox([], 0, false, [], [], 0)

  /** `room`: whether the lock-free queue finds room; with the queue at capacity it never does. */
  predicate Succeeds(b: Inbox, room: bool) {
    !b.stopping && room && |b.queue| < PACKET_QUEUE_CAPACITY
  }

  function Push(b: Inbox, p: Packet, room: bool): Inbox {
    var b := b.(offered := b.offered + [p]);
    if b.stopping then b.(refused := b.refused + 1)
    else if Succeeds(b, room) then b.(queue := b.queue + [p])
    else b.(dropped := b.dropped + 1)
  }

  function PushAll(b: Inbox, ps: seq<Packet>, room: bool): Inbox
    requires |ps| <= 1
  {
    if ps == [] then b else Push(b, ps[0], room)
  }

  function Poll(b: Inbox): Inbox {
    if b.queue == [] then b else b.(queue := b.queue[1..], polled := b.polled + [b.queue[0]])
  }

  function Stop(b: Inbox): Inbox { b.(stopping := true) }

  /** Nothing is lost silently, and what gets through keeps its order. */
  ghost predicate Conserved(b: Inbox) {
    && |b.offered| == |b.polled| + |b.queue| + b.dropped + b.refused
    && Subsequence(b.Stream(), b.offered)
    && |b.queue| <= PACKET_QUEUE_CAPACITY
    && (!b.stopping ==> b.refused == 0)
    && (b.dropped == 0 && b.refused == 0 ==> b.Stream() == b.offered)
  }

  lemma PushConserves(b: Inbox, p: Packet, room: bool)
    requires Conserved(b)
    ensures Conserved(Push(b, p, room))
    ensures Push(b, p, room).Stream() == if Succeeds(b, room) then b.Stream() + [p] else b.Stream()
  {
    ConcatAssoc(b.polled, b.queue, [p]);
    SubsequenceKeep(b.Stream(), b.offered, p);
    SubsequenceSkip(b.Stream(), b.offered, p);
  }

  /**
   * A packet is queued exactly while the server runs, the queue takes it, and fewer than 8192 wait; else it is counted.
   */
  lemma PushExactly(b: Inbox, p: Packet, room: bool)
    ensures var b' := Push(b, p, room);
            && b'.offered == b.offered + [p] && b'.polled == b.polled && b'.stopping == b.stopping
            && (if !b.stopping && room && |b.queue| < 8192 then
                  b'.queue == b.queue + [p] && b'.dropped == b.dropped && b'.refused == b.refused
                else
                  && b'.queue == b.queue
                  && b'.dropped == b.dropped + (if b.stopping then 0 else 1)
                  && b'.refused == b.refused + (if b.stopping then 1 else 0))
  {
  }

  lemma PollConserves(b: Inbox)
    requires Conserved(b)
    ensures Conserved(Poll(b)) && Poll(b).Stream() == b.Stream()
  {
    if b.queue != [] {
      assert b.queue == [b.queue[0]] + b.queue[1..];
      ConcatAssoc(b.polled, [b.queue[0]], b.queue[1..]);
    }
  }

  /** The packets of one session. */
  function Of(ps: seq<Packet>, id: u32): seq<Packet> {
    if ps == [] then [] else
      Of(ps[..|ps| - 1], id) + (if ps[|ps| - 1].id == id then [ps[|ps| - 1]] else [])
  }

  lemma {:induction false} OfConcat(a: seq<Packet>, b: seq<Packet>, id: u32)
    ensures Of(a + b, id) == Of(a, id) + Of(b, id)
  {
    if b == [] {
      assert a + b == a;
    } else {
      OfConcat(a, b[..|b| - 1], id);
      assert (a + b)[..|a + b| - 1] == a + b[..|b| - 1];
    }
  }

  lemma {:induction false} OfSubsequence(a: seq<Packet>, b: seq<Packet>, id: u32)
    requires Subsequence(a, b)
    ensures Subsequence(Of(a, id), Of(b, id))
    decreases |b|
  {
    if a != [] {
      var a', b' := a[..|a| - 1], b[..|b| - 1];
      var more := if b[|b| - 1].id == id then [b[|b| - 1]] else [];
      assert more == [] ==> Of(b, id) == Of(b', id);
      if Subsequence(a, b') {
        OfSubsequence(a, b', id);
        if more != [] {
          SubsequenceSkip(Of(a, id), Of(b', id), more[0]);
        }
      } else {
        OfSubsequence(a', b', id);
        assert more == [] ==> Of(a, id) == Of(a', id);
        if more != [] {
          SubsequenceKeep(Of(a', id), Of(b', id), more[0]);
        }
      }
    }
  }
}
