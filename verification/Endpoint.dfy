/**
 * One end of a connection: the automaton that Session and Client both run. Each function below is
 * one completion handler or posted closure, executed as a single atomic step. The network's own moves
 * (Transmit, Take) are the only other steps.
 *
 * An asynchronous operation is a value: what it still needs, and whether it was started on a socket
 * that is already closed (`doomed`), in which case it can only complete with an error. Success needs the
 * operation to be complete; an operation completed before the socket closed may still report success after.
 */
module Endpoint {
  import opened Bytes
  import opened Codec
  import opened Stream

  const MAX_PENDING_WRITE_FRAMES := 1024
  const HEARTBEAT_INTERVAL := 5000   // milliseconds
  const HEARTBEAT_TIMEOUT := 15000

  // ----- The sending half -----

  datatype WriteOp = NoWrite | Write(done: nat, doomed: bool)

  /** History: `popped` frames left the queue, `sent` bytes are on the wire, `pushed` frames were handed in. */
  datatype Outbox = Outbox(
    queue: seq<Bytes>, writing: bool, op: WriteOp,
    popped: seq<Bytes>, sent: Bytes, pushed: multiset<Bytes>, released: multiset<Bytes>)
  {
    /** Frames taken into the queue so far, in order. */
    function Accepted(): seq<Bytes> { popped + queue }
  }

  function DoWrite(o: Outbox, closed: bool): Outbox {
    if o.queue == [] then o.(writing := false, op := NoWrite)
    else o.(writing := true, op := Write(0, closed))
  }

  predicate QueueFull(o: Outbox) { |o.queue| >= MAX_PENDING_WRITE_FRAMES }

  /** The frame is taken into the queue, or given back to the pool. */
  function Enqueue(o: Outbox, frame: Bytes, closed: bool): Outbox {
    var o := o.(pushed := o.pushed + multiset{frame});
    if closed || QueueFull(o) then o.(released := o.released + multiset{frame})
    else
      var o := o.(queue := o.queue + [frame]);
      if o.writing then o else DoWrite(o, closed)
  }

  predicate CanFinishWrite(o: Outbox, ok: bool) {
    && o.op.Write? && o.queue != []
    && (ok ==> !o.op.doomed && o.op.done == |o.queue[0]|)
  }

  /** First half of the write handler: the front is released and popped, whatever the outcome. */
  function PopFront(o: Outbox): Outbox
    requires o.queue != []
  {
    o.(released := o.released + multiset{o.queue[0]}, popped := o.popped + [o.queue[0]],
       queue := o.queue[1..], op := NoWrite)
  }

  /** The kernel accepts the next `k` bytes of the frame being written. */
  predicate CanTransmit(o: Outbox, k: nat) {
    o.op.Write? && !o.op.doomed && o.queue != [] && o.op.done + k <= |o.queue[0]|
  }

  function Transmit(o: Outbox, k: nat): Outbox
    requires CanTransmit(o, k)
  {
    var done := o.op.done;
    o.(op := Write(done + k, false), sent := o.sent + o.queue[0][done..done + k])
  }

  // ----- The receiving half -----

  datatype Want = Head | Body
  datatype ReadOp = NoRead | Read(want: Want, need: nat, got: Bytes, doomed: bool)

  /** History: `incoming` bytes were taken off the wire, `heard` frames were read completely. */
  datatype Inlet = Inlet(headerBuf: Bytes, op: ReadOp, incoming: Bytes, heard: seq<Bytes>)

  function StartHeaderRead(i: Inlet, closed: bool): Inlet {
    i.(op := Read(Head, HEADER_SIZE, [], closed))
  }

  predicate CanFinishRead(i: Inlet, want: Want, ok: bool) {
    && i.op.Read? && i.op.want == want
    && (ok ==> !i.op.doomed && |i.op.got| == i.op.need)
  }

  /** The pending read receives a chunk of any size up to what it still needs. */
  predicate CanTake(i: Inlet, chunk: Bytes) {
    i.op.Read? && !i.op.doomed && |i.op.got| + |chunk| <= i.op.need
  }

  function Take(i: Inlet, chunk: Bytes): Inlet
    requires CanTake(i, chunk)
  {
    i.(op := i.op.(got := i.op.got + chunk), incoming := i.incoming + chunk)
  }

  // ----- The endpoint -----

  /** A wait; `cancelled` tells when it was cancelled, if it was. */
  datatype TimerOp = NoTimer | Timer(deadline: nat, cancelled: Option<nat>) {
    /** A wait whose deadline had passed when it was cancelled was already queued and may still report success. */
    predicate MayExpire() { Timer? && (cancelled.Some? ==> deadline <= cancelled.value) }
  }

  /** `clock` is the time of the latest step. */
  datatype Endpoint = Endpoint(
    out: Outbox, inlet: Inlet, closed: bool, timer: TimerOp, lastActivity: nat, clock: nat)

  /**
   * State right after the reads and the heartbeat timer were started. `activity` is the idle clock's stamp, which a
   * client takes when it is constructed, before it connects.
   */
  function StartedAfter(now: nat, activity: nat): Endpoint {
    Endpoint(Outbox([], false, NoWrite, [], [], multiset{}, multiset{}),
             Inlet([], Read(Head, HEADER_SIZE, [], false), [], []),
             false, Timer(now + HEARTBEAT_INTERVAL, None), activity, now)
  }

  /** A session stamps and starts at once. */
  function Started(now: nat): Endpoint { StartedAfter(now, now) }

  function CancelTimer(t: TimerOp, now: nat): TimerOp {
    if t.Timer? && t.cancelled.None? then t.(cancelled := Some(now)) else t
  }

  /** Client shutdown: closes the socket whether or not it is closed already. */
  function ForceClose(e: Endpoint, now: nat): Endpoint {
    e.(closed := true, timer := CancelTimer(e.timer, now), clock := now)
  }

  function Close(e: Endpoint, now: nat): Endpoint {
    if e.closed then e.(clock := now) else ForceClose(e, now)
  }

  /** `stop` is the client's shutting_down flag; a server session has none and passes false. */
  function EnqueueWrite(e: Endpoint, frame: Bytes, now: nat, stop: bool): Endpoint {
    var refused := !stop && !e.closed && QueueFull(e.out);
    var e := e.(out := Enqueue(e.out, frame, stop || e.closed), clock := now);
    if refused then Close(e, now) else e
  }

  function HeaderDone(e: Endpoint, ok: bool, now: nat, stop: bool): Endpoint
    requires CanFinishRead(e.inlet, Head, ok) && (ok ==> HEADER_SIZE <= |e.inlet.op.got|)
  {
    var got := e.inlet.op.got;
    var idle := e.inlet.(op := NoRead);
    if !ok || stop then Close(e.(inlet := idle), now)
    else
      var idle := idle.(headerBuf := got);
      var head := DecodeHeader(got);
      if head.Err? then Close(e.(inlet := idle), now)
      else if head.header.IsKeepalive() then
        e.(inlet := StartHeaderRead(idle.(heard := idle.heard + [got]), e.closed), lastActivity := now, clock := now)
      else
        e.(inlet := idle.(op := Read(Body, head.header.payloadSize, [], e.closed)), lastActivity := now, clock := now)
  }

  /** `late`: the flag is found set only at the second test, after the payload was copied. */
  function BodyDone(e: Endpoint, ok: bool, late: bool, now: nat, stop: bool): Endpoint
    requires CanFinishRead(e.inlet, Body, ok)
  {
    var idle := e.inlet.(op := NoRead);
    if !ok || stop then Close(e.(inlet := idle), now)
    else if late then e.(inlet := idle, clock := now)
    else
      var frame := e.inlet.headerBuf + e.inlet.op.got;
      e.(inlet := StartHeaderRead(idle.(heard := idle.heard + [frame]), e.closed), clock := now)
  }

  function WriteDone(e: Endpoint, ok: bool, now: nat, stop: bool): Endpoint
    requires CanFinishWrite(e.out, ok)
  {
    var popped := PopFront(e.out);
    if !ok || stop then Close(e.(out := popped), now)
    else e.(out := DoWrite(popped, e.closed), clock := now)
  }

  predicate CanFireTimer(e: Endpoint, ok: bool, now: nat) {
    && e.timer.Timer?
    && if ok then e.timer.MayExpire() && e.timer.deadline <= now else e.timer.cancelled.Some?
  }

  function TimerFired(e: Endpoint, ok: bool, now: nat, stop: bool): Endpoint
    requires CanFireTimer(e, ok, now)
  {
    var e := e.(timer := NoTimer, clock := now);
    if !ok then e
    else if now - e.lastActivity >= HEARTBEAT_TIMEOUT then Close(e, now)
    else EnqueueWrite(e, KEEPALIVE_FRAME, now, stop).(timer := Timer(now + HEARTBEAT_INTERVAL, None))
  }

  datatype Action =
    | PushFrame(frame: Bytes)
    | CloseNow
    | ForceCloseNow
    | OnHeader(ok: bool)
    | OnBody(ok: bool, late: bool)
    | OnWritten(ok: bool)
    | OnTimer(ok: bool)
    | DoTransmit(k: nat)
    | DoTake(chunk: Bytes)
  {
    /** A completion handler of one of the three chains, as opposed to a closure posted from outside. */
    predicate IsCompletion() { OnHeader? || OnBody? || OnWritten? || OnTimer? }
  }

  predicate Enabled(e: Endpoint, a: Action, now: nat) {
    && e.clock <= now
    && match a
       case PushFrame(frame) => Legal(frame)
       case CloseNow => true
       case ForceCloseNow => true
       case OnHeader(ok) => CanFinishRead(e.inlet, Head, ok) && (ok ==> HEADER_SIZE <= |e.inlet.op.got|)
       case OnBody(ok, _) => CanFinishRead(e.inlet, Body, ok)
       case OnWritten(ok) => CanFinishWrite(e.out, ok)
       case OnTimer(ok) => CanFireTimer(e, ok, now)
       case DoTransmit(k) => !e.closed && CanTransmit(e.out, k)
       case DoTake(chunk) => !e.closed && CanTake(e.inlet, chunk)
  }

  function Apply(e: Endpoint, a: Action, now: nat, stop: bool): Endpoint
    requires Enabled(e, a, now)
  {
    match a
    case PushFrame(frame) => EnqueueWrite(e, frame, now, stop)
    case CloseNow => Close(e, now)
    case ForceCloseNow => ForceClose(e, now)
    case OnHeader(ok) => HeaderDone(e, ok, now, stop)
    case OnBody(ok, late) => BodyDone(e, ok, late, now, stop)
    case OnWritten(ok) => WriteDone(e, ok, now, stop)
    case OnTimer(ok) => TimerFired(e, ok, now, stop)
    case DoTransmit(k) => e.(out := Transmit(e.out, k), clock := now)
    case DoTake(chunk) => e.(inlet := Take(e.inlet, chunk), clock := now)
  }

  /** The only ways a step changes the sending half. */
  datatype OutStep = Keep | Put(frame: Bytes, blocked: bool) | Pop | PopAndWrite | Send(k: nat)

  function OutStepOf(e: Endpoint, a: Action, now: nat, stop: bool): OutStep
    requires Enabled(e, a, now)
  {
    match a
    case PushFrame(frame) => Put(frame, stop || e.closed)
    case OnTimer(ok) =>
      if ok && now - e.lastActivity < HEARTBEAT_TIMEOUT then Put(KEEPALIVE_FRAME, stop || e.closed) else Keep
    case OnWritten(ok) => if ok && !stop then PopAndWrite else Pop
    case DoTransmit(k) => Send(k)
    case _ => Keep
  }

  /** How a step changes the sending half, with the closed flag after it. */
  lemma OutAfter(e: Endpoint, a: Action, now: nat, stop: bool)
    requires Enabled(e, a, now)
    ensures var e' := Apply(e, a, now, stop);
            && (e.closed ==> e'.closed)
            && match OutStepOf(e, a, now, stop)
               case Keep => e'.out == e.out
               case Put(frame, blocked) =>
                 && e'.out == Enqueue(e.out, frame, blocked)
                 && e'.closed == (e.closed || (!blocked && QueueFull(e.out)))
               case Pop => e'.closed && e.out.queue != [] && e'.out == PopFront(e.out)
               case PopAndWrite =>
                 && e'.closed == e.closed && e.out.queue != []
                 && e'.out == DoWrite(PopFront(e.out), e.closed)
               case Send(k) =>
                 && !e.closed && e'.closed == e.closed && CanTransmit(e.out, k)
                 && e'.out == Transmit(e.out, k)
  {
  }

  // ----- The write pump -----

  /** Every frame handed in is queued or released, never both and never twice. */
  ghost predicate FramesConserved(o: Outbox) {
    o.pushed == multiset(o.queue) + o.released
  }

  /** At most one write is outstanding, it writes the queue front, and an idle open endpoint has nothing to write. */
  ghost predicate Control(o: Outbox, closed: bool) {
    && |o.queue| <= MAX_PENDING_WRITE_FRAMES
    && (o.op.Write? ==> o.queue != [] && o.writing && o.op.done <= |o.queue[0]|)
    && (o.op.Write? && o.op.doomed ==> closed)
    && (o.op.NoWrite? && !closed ==> o.queue == [] && !o.writing)
  }

  /** The wire carries the frames that left the queue, then the written part of the front. */
  ghost predicate OnWire(o: Outbox, closed: bool) {
    if o.op.Write? && !o.op.doomed then
      o.queue != [] && o.op.done <= |o.queue[0]| && o.sent == Flatten(o.popped) + o.queue[0][..o.op.done]
    else
      o.sent <= Flatten(o.popped) && (!closed ==> o.sent == Flatten(o.popped))
  }

  ghost predicate Pump(o: Outbox, closed: bool) {
    Control(o, closed) && OnWire(o, closed) && FramesConserved(o) && AllLegal(o.Accepted())
  }

  lemma PumpEnqueue(o: Outbox, frame: Bytes, blocked: bool, closed: bool)
    requires Pump(o, closed) && Legal(frame) && (closed ==> blocked)
    ensures var o' := Enqueue(o, frame, blocked);
            && Pump(o', closed)
            && o'.Accepted() == o.Accepted() + (if blocked || QueueFull(o) then [] else [frame])
  {
    var o' := Enqueue(o, frame, blocked);
    if blocked || QueueFull(o) {
      assert o'.Accepted() == o.Accepted() + [];
    } else {
      ConcatAssoc(o.popped, o.queue, [frame]);
      assert o'.queue == o.queue + [frame];
      assert o'.op == if o.writing then o.op else Write(0, false);
      assert FramesConserved(o');
      assert OnWire(o', closed) by {
        if o.writing {
          assert o'.queue[0] == o.queue[0];
        } else {
          assert o'.queue[0][..0] == [];
          assert Flatten(o.popped) + [] == Flatten(o.popped);
        }
      }
    }
  }

  lemma PumpPop(o: Outbox, closed: bool)
    requires Pump(o, closed) && o.op.Write?
    ensures Pump(PopFront(o), true)
    ensures PopFront(o).Accepted() == o.Accepted()
  {
    var front := o.queue[0];
    assert o.queue == [front] + o.queue[1..];
    ConcatAssoc(o.popped, [front], o.queue[1..]);
    FlattenSnoc(o.popped, front);
    if !o.op.doomed {
      assert front == front[..o.op.done] + front[o.op.done..];
      ConcatAssoc(Flatten(o.popped), front[..o.op.done], front[o.op.done..]);
    }
  }

  lemma PumpPopAndWrite(o: Outbox, closed: bool)
    requires Pump(o, closed) && CanFinishWrite(o, true)
    ensures var o' := DoWrite(PopFront(o), closed);
            Pump(o', closed) && o'.Accepted() == o.Accepted()
  {
    PumpPop(o, closed);
    FlattenSnoc(o.popped, o.queue[0]);
    assert o.queue[0][..o.op.done] == o.queue[0];
    var popped := PopFront(o);
    assert popped.queue != [] ==> popped.queue[0][..0] == [];
    assert Flatten(popped.popped) + [] == Flatten(popped.popped);
  }

  lemma PumpTransmit(o: Outbox, k: nat, closed: bool)
    requires Pump(o, closed) && CanTransmit(o, k)
    ensures Pump(Transmit(o, k), closed)
  {
    var done, front := o.op.done, o.queue[0];
    assert front[..done] + front[done..done + k] == front[..done + k];
    ConcatAssoc(Flatten(o.popped), front[..done], front[done..done + k]);
  }

  /**
   * The pump, over every interleaving of handlers: at most one write is outstanding and it writes the queue
   * front; a write's handler never pops an empty queue; an open endpoint without an outstanding write has an empty
   * queue; the queue is bounded; every frame handed in is queued or released. Accepted frames are only added to.
   */
  lemma PumpKept(e: Endpoint, a: Action, now: nat, stop: bool)
    requires Pump(e.out, e.closed) && Enabled(e, a, now)
    ensures var e' := Apply(e, a, now, stop);
            && Pump(e'.out, e'.closed)
            && (e'.out.Accepted() == e.out.Accepted()
                || (OutStepOf(e, a, now, stop).Put? && !stop && !e.closed
                    && e'.out.Accepted() == e.out.Accepted() + [OutStepOf(e, a, now, stop).frame]))
  {
    OutAfter(e, a, now, stop);
    match OutStepOf(e, a, now, stop) {
      case Keep =>
      case Put(frame, blocked) =>
        KeepaliveLegal();
        PumpEnqueue(e.out, frame, blocked, e.closed);
      case Pop => PumpPop(e.out, e.closed);
      case PopAndWrite => PumpPopAndWrite(e.out, e.closed);
      case Send(k) => PumpTransmit(e.out, k, e.closed);
    }
  }

  /** The bytes on the wire are always a prefix of the accepted frames. */
  lemma SentIsPrefixOfAccepted(o: Outbox, closed: bool)
    requires Pump(o, closed)
    ensures o.sent <= Flatten(o.Accepted())
  {
    FlattenConcat(o.popped, o.queue);
    if o.queue != [] {
      var front := o.queue[0];
      assert o.queue == [front] + o.queue[1..];
      FlattenCons(front, o.queue[1..]);
      ConcatAssoc(Flatten(o.popped), front, Flatten(o.queue[1..]));
      if o.op.Write? {
        assert front == front[..o.op.done] + front[o.op.done..];
        ConcatAssoc(Flatten(o.popped), front[..o.op.done], front[o.op.done..]);
      }
    }
  }

  // ----- The reader -----

  /** What was read completely is the incoming stream re-encoded, up to the frame in progress. */
  ghost predicate Reader(i: Inlet) {
    && AllLegal(i.heard)
    && Flatten(i.heard) <= i.incoming
    && (i.op.Read? ==> |i.op.got| <= i.op.need)
    && (i.op.Read? && i.op.want.Head? ==>
          i.op.need == HEADER_SIZE && i.incoming == Flatten(i.heard) + i.op.got)
    && (i.op.Read? && i.op.want.Body? ==>
          && |i.headerBuf| == HEADER_SIZE && i.incoming == Flatten(i.heard) + (i.headerBuf + i.op.got)
          && DecodeHeader(i.headerBuf).Ok? && !DecodeHeader(i.headerBuf).header.IsKeepalive()
          && DecodeHeader(i.headerBuf).header.payloadSize == i.op.need)
  }

  lemma CompleteFrameIsLegal(head: Bytes, body: Bytes)
    requires |head| == HEADER_SIZE && DecodeHeader(head).Ok?
    requires |body| == DecodeHeader(head).header.payloadSize
    ensures Legal(head + body) && IsData(head + body) == (body != [])
    ensures IsData(head + body) ==> (head + body)[HEADER_SIZE..] == body
  {
    assert (head + body)[..HEADER_SIZE] == head;
  }

  lemma ReaderHeader(e: Endpoint, ok: bool, now: nat, stop: bool)
    requires Reader(e.inlet) && CanFinishRead(e.inlet, Head, ok) && (ok ==> HEADER_SIZE <= |e.inlet.op.got|)
    ensures Reader(HeaderDone(e, ok, now, stop).inlet)
  {
    var got := e.inlet.op.got;
    if ok && !stop && DecodeHeader(got).Ok? {
      assert got + [] == got;
      if DecodeHeader(got).header.IsKeepalive() {
        CompleteFrameIsLegal(got, []);
        FlattenSnoc(e.inlet.heard, got);
      }
    }
  }

  lemma ReaderBody(e: Endpoint, ok: bool, late: bool, now: nat, stop: bool)
    requires Reader(e.inlet) && CanFinishRead(e.inlet, Body, ok)
    ensures Reader(BodyDone(e, ok, late, now, stop).inlet)
  {
    if ok && !stop && !late {
      CompleteFrameIsLegal(e.inlet.headerBuf, e.inlet.op.got);
      FlattenSnoc(e.inlet.heard, e.inlet.headerBuf + e.inlet.op.got);
    }
  }

  lemma ReaderTake(i: Inlet, chunk: Bytes)
    requires Reader(i) && CanTake(i, chunk)
    ensures Reader(Take(i, chunk))
  {
    ConcatAssoc(Flatten(i.heard), i.op.got, chunk);
    ConcatAssoc(Flatten(i.heard), i.headerBuf + i.op.got, chunk);
    ConcatAssoc(i.headerBuf, i.op.got, chunk);
  }

  /** The reader keeps its invariant on any bytes whatever, cut into chunks of any sizes. */
  lemma ReaderKept(e: Endpoint, a: Action, now: nat, stop: bool)
    requires Reader(e.inlet) && Enabled(e, a, now)
    ensures Reader(Apply(e, a, now, stop).inlet)
  {
    match a {
      case OnHeader(ok) => ReaderHeader(e, ok, now, stop);
      case OnBody(ok, late) => ReaderBody(e, ok, late, now, stop);
      case DoTake(chunk) => ReaderTake(e.inlet, chunk);
      case _ => assert Apply(e, a, now, stop).inlet == e.inlet;
    }
  }

  /** Between chunks, the automaton has read exactly what the read loop makes of the same bytes. */
  lemma ReaderRefinesParse(i: Inlet)
    requires Reader(i) && i.op.Read? && |i.op.got| < i.op.need
    ensures Parse(i.incoming).frames == i.heard && !Parse(i.incoming).refused
    ensures Parse(i.incoming).rest == if i.op.want.Head? then i.op.got else i.headerBuf + i.op.got
  {
    var rest := if i.op.want.Head? then i.op.got else i.headerBuf + i.op.got;
    ParseContinues(i.heard, rest, i.incoming);
    if i.op.want.Body? {
      assert rest[..HEADER_SIZE] == i.headerBuf;
    }
    assert Parse(rest) == Reading([], rest, false);
    assert i.heard + [] == i.heard;
  }

  /** Two honest endpoints: what one has heard is a prefix of what the other has accepted for sending. */
  lemma HeardIsPrefixOfAccepted(i: Inlet, o: Outbox, closed: bool)
    requires Reader(i) && Pump(o, closed) && i.incoming <= o.sent
    ensures i.heard <= o.Accepted()
    ensures DataOf(i.heard) <= DataOf(o.Accepted())
  {
    SentIsPrefixOfAccepted(o, closed);
    FlattenReflectsPrefix(i.heard, o.Accepted());
    DataOfPrefix(i.heard, o.Accepted());
  }

  /** An endpoint never refuses a header that comes from an honest peer. */
  lemma HonestHeadersAreAccepted(i: Inlet, o: Outbox, closed: bool)
    requires Reader(i) && Pump(o, closed) && i.incoming <= o.sent
    requires CanFinishRead(i, Head, true)
    ensures DecodeHeader(i.op.got).Ok?
  {
    SentIsPrefixOfAccepted(o, closed);
    ParseOfCutStream(o.Accepted(), i.incoming);
    ParseContinues(i.heard, i.op.got, i.incoming);
    assert i.op.got[..HEADER_SIZE] == i.op.got;
  }
}
