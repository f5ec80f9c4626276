/** One server-side connection: the handlers of its strand, each updating the session in place. */
module Sessions {
  import opened Bytes
  import opened Codec
  import opened Endpoint
  import Automaton = Endpoint
  import opened PacketQueue
  import opened Network
  import opened ServerCores
  import opened Frames

  class Session {
    const id: u32
    const core: ServerCore

    var headerBuf: Bytes
    var bodyBuf: Bytes
    var writeQueue: seq<Bytes>
    var writing: bool
    var closed: bool
    var lastActivity: nat

    // what the I/O library holds: the operations under way and the closures posted to the strand
    var readOp: ReadOp
    var writeOp: WriteOp
    var timer: TimerOp
    var posted: seq<Post>

    ghost var popped: seq<Bytes>
    ghost var sent: Bytes
    ghost var pushed: multiset<Bytes>
    ghost var released: multiset<Bytes>
    ghost var incoming: Bytes
    ghost var heard: seq<Bytes>
    ghost var clock: nat

    ghost function View(): Endpoint
      reads this`writeQueue, this`writing, this`writeOp, this`popped, this`sent, this`pushed, this`released,
            this`headerBuf, this`readOp, this`incoming, this`heard, this`closed, this`timer, this`lastActivity,
                this`clock
    {
      Endpoint(Outbox(writeQueue, writing, writeOp, popped, sent, pushed, released),
               Inlet(headerBuf, readOp, incoming, heard), closed, timer, lastActivity, clock)
    }

    /** The receive and close callbacks have run as the action demands. */
    ghost predicate CalledBack(inbox: Inbox, tasks: seq<Task>, ps: seq<Packet>, wasClosed: bool, room: bool)
      reads this`closed, core
      requires |ps| <= 1
    {
      && core.View() == PushAll(inbox, ps, room)
      && core.tasks == tasks + if !wasClosed && closed then [EraseTask(id)] else []
    }

    /** The close callback has run if the session was closed meanwhile, and no other callback has. */
    ghost predicate Notified(inbox: Inbox, tasks: seq<Task>, wasClosed: bool, room: bool)
      reads this`closed, core
    {
      CalledBack(inbox, tasks, if !wasClosed && closed then [Disconnect(id)] else [], wasClosed, room)
    }

    lemma NothingToNotify(room: bool)
      ensures Notified(core.View(), core.tasks, closed, room)
    {
    }

    /** Construction and start(). */
    constructor (id: u32, core: ServerCore, now: nat)
      ensures View() == Started(now) && posted == []
      ensures this.id == id && this.core == core
    {
      this.id, this.core := id, core;
      headerBuf, bodyBuf, writeQueue, writing, closed, lastActivity := [], [], [], false, false, now;
      readOp, writeOp, timer, posted := NoRead, NoWrite, NoTimer, [];
      popped, sent, pushed, released, incoming, heard, clock := [], [], multiset{}, multiset{}, [], [], now;
      new;
      DoReadHeader();
      StartHeartbeat(now);
    }

    method EnqueueRawFrame(frame: Bytes)
      modifies this`posted
      ensures posted == old(posted) + [EnqueuePost(frame)]
    {
      posted := posted + [EnqueuePost(frame)];
    }

    method CloseLater()
      modifies this`posted
      ensures posted == old(posted) + [ClosePost]
    {
      posted := posted + [ClosePost];
    }

    /** Runs one handler, one posted closure, or one move of the kernel. */
    method Step(a: Action, now: nat, room: bool)
      requires Enabled(View(), a, now) && !a.ForceCloseNow? && !(a.OnBody? && a.late)
      modifies this, core
      ensures View() == Apply(old(View()), a, now, false) && posted == old(posted)
      ensures CalledBack(old(core.View()), old(core.tasks), CallbackPackets(id, old(View()), a, now), old(closed), room)
    {
      hide CalledBack, HeaderDone, BodyDone, WriteDone, TimerFired, Automaton.EnqueueWrite, Close, DecodeHeader,
           Transmit, Take;
      match a {
        case PushFrame(frame) => EnqueueWrite(frame, now, room);
        case CloseNow => HandleClose(now, room);
        case OnHeader(ok) => HeaderRead(ok, now, room);
        case OnBody(ok, _) => BodyRead(ok, now, room);
        case OnWritten(ok) => Written(ok, now, room);
        case OnTimer(ok) => TimerExpired(ok, now, room);
        case DoTransmit(k) => BytesLeave(k, now); NothingToNotify(room);
        case DoTake(chunk) => BytesArrive(chunk, now); NothingToNotify(room);
      }
    }

    /** The kernel takes the next `k` bytes of the frame being written. */
    method BytesLeave(k: nat, now: nat)
      requires CanTransmit(View().out, k)
      modifies this`sent, this`writeOp, this`clock
      ensures View() == old(View()).(out := Transmit(old(View().out), k), clock := now)
    {
      sent := sent + writeQueue[0][writeOp.done..writeOp.done + k];
      writeOp := Write(writeOp.done + k, false);
      clock := now;
    }

    /** The pending read gets its next bytes. */
    method BytesArrive(chunk: Bytes, now: nat)
      requires CanTake(View().inlet, chunk)
      modifies this`incoming, this`readOp, this`clock
      ensures View() == old(View()).(inlet := Take(old(View().inlet), chunk), clock := now)
    {
      readOp := readOp.(got := readOp.got + chunk);
      incoming := incoming + chunk;
      clock := now;
    }

    method EnqueueWrite(frame: Bytes, now: nat, room: bool)
      modifies this, core
      ensures View() == Automaton.EnqueueWrite(old(View()), frame, now, false) && posted == old(posted)
      ensures Notified(old(core.View()), old(core.tasks), old(closed), room)
    {
      hide Notified, CalledBack, Close, Enqueue;
      clock := now;
      if closed {
        ReleaseFrame(frame);
        NothingToNotify(room);
        return;
      }
      var taken := EnqueueFrame(frame);
      if !taken {
        ReleaseFrame(frame);
        HandleClose(now, room);
      } else {
        NothingToNotify(room);
      }
    }

    /** A frame that was not queued goes back to the pool. */
    method ReleaseFrame(frame: Bytes)
      requires closed || QueueFull(View().out)
      modifies this`pushed, this`released
      ensures View() == old(View()).(out := Enqueue(old(View().out), frame, closed))
    {
      pushed := pushed + multiset{frame};
      released := released + multiset{frame};
    }

    /** The shared queue step; the frame is taken only when there is room. */
    method EnqueueFrame(frame: Bytes) returns (taken: bool)
      requires !closed
      modifies this`writeQueue, this`writing, this`writeOp, this`pushed
      ensures taken == !QueueFull(old(View().out))
      ensures !taken ==> View() == old(View())
      ensures taken ==> View() == old(View()).(out := Enqueue(old(View().out), frame, false))
    {
      if |writeQueue| >= MAX_PENDING_WRITE_FRAMES {
        return false;
      }
      pushed := pushed + multiset{frame};
      writeQueue := writeQueue + [frame];
      if !writing {
        DoWrite();
      }
      return true;
    }

    method DoReadHeader()
      modifies this`readOp
      ensures View() == old(View()).(inlet := StartHeaderRead(old(View().inlet), closed))
    {
      readOp := Read(Head, HEADER_SIZE, [], closed);
    }

    method HeaderRead(ok: bool, now: nat, room: bool)
      requires CanFinishRead(View().inlet, Head, ok) && (ok ==> HEADER_SIZE <= |readOp.got|)
      modifies this, core
      ensures View() == HeaderDone(old(View()), ok, now, false) && posted == old(posted)
      ensures Notified(old(core.View()), old(core.tasks), old(closed), room)
    {
      hide Notified, CalledBack, DecodeHeader, Close, StartHeaderRead;
      var got := readOp.got;
      readOp := NoRead;
      if !ok {
        HandleClose(now, room);
        return;
      }
      headerBuf := got;
      var head := DecodeHeader(headerBuf);
      if head.Err? {
        HandleClose(now, room);
        return;
      }
      AcceptedSize(headerBuf);
      HeaderAccepted(head.header, now);
      NothingToNotify(room);
    }

    method HeaderAccepted(header: Header, now: nat)
      requires 0 <= header.payloadSize && readOp.NoRead?
      modifies this`lastActivity, this`clock, this`heard, this`bodyBuf, this`readOp
      ensures View() == old(View()).(
                inlet := if header.IsKeepalive()
                    then StartHeaderRead(old(View().inlet).(heard := old(heard) + [headerBuf]), closed)
                         else old(View().inlet).(op := Read(Body, header.payloadSize, [], closed)),
                lastActivity := now, clock := now)
    {
      lastActivity := now;
      clock := now;
      if header.IsKeepalive() {
        heard := heard + [headerBuf];
        DoReadHeader();
        return;
      }
      bodyBuf := seq(header.payloadSize, _ => 0);
      DoReadBody();
    }

    method DoReadBody()
      modifies this`readOp
      ensures View() == old(View()).(inlet := old(View().inlet).(op := Read(Body, |bodyBuf|, [], closed)))
    {
      readOp := Read(Body, |bodyBuf|, [], closed);
    }

    method BodyRead(ok: bool, now: nat, room: bool)
      requires CanFinishRead(View().inlet, Body, ok)
      modifies this, core
      ensures View() == BodyDone(old(View()), ok, false, now, false) && posted == old(posted)
      ensures CalledBack(old(core.View()), old(core.tasks),
                         if ok then [Data(id, old(readOp.got))] else if !old(closed)
                             && closed then [Disconnect(id)] else [], old(closed), room)
    {
      var got := readOp.got;
      readOp := NoRead;
      if !ok {
        HandleClose(now, room);
        return;
      }
      bodyBuf := got;
      heard := heard + [headerBuf + bodyBuf];
      clock := now;
      var _ := core.PushPacket(Data(id, bodyBuf), room);
      DoReadHeader();
    }

    method DoWrite()
      requires writeQueue == [] ==> writeOp.NoWrite?
      modifies this`writing, this`writeOp
      ensures View() == old(View()).(out := Automaton.DoWrite(old(View().out), closed))
    {
      if writeQueue == [] {
        writing := false;
        return;
      }
      writing := true;
      writeOp := Write(0, closed);
    }

    /** The front goes back to the pool and leaves the queue. */
    method PopFrontFrame()
      requires writeQueue != []
      modifies this`writeOp, this`writeQueue, this`released, this`popped
      ensures View() == old(View()).(out := PopFront(old(View().out))) && writeOp.NoWrite?
    {
      writeOp := NoWrite;
      released := released + multiset{writeQueue[0]};
      popped := popped + [writeQueue[0]];
      writeQueue := writeQueue[1..];
    }

    method Written(ok: bool, now: nat, room: bool)
      requires CanFinishWrite(View().out, ok)
      modifies this, core
      ensures View() == WriteDone(old(View()), ok, now, false) && posted == old(posted)
      ensures Notified(old(core.View()), old(core.tasks), old(closed), room)
    {
      hide Notified, CalledBack, PopFront, Close, Automaton.DoWrite;
      PopFrontFrame();
      if !ok {
        HandleClose(now, room);
        return;
      }
      clock := now;
      DoWrite();
      NothingToNotify(room);
    }

    method StartHeartbeat(now: nat)
      modifies this`timer
      ensures timer == Timer(now + HEARTBEAT_INTERVAL, None)
    {
      timer := Timer(now + HEARTBEAT_INTERVAL, None);
    }

    method TimerExpired(ok: bool, now: nat, room: bool)
      requires CanFireTimer(View(), ok, now)
      modifies this, core
      ensures View() == TimerFired(old(View()), ok, now, false) && posted == old(posted)
      ensures Notified(old(core.View()), old(core.tasks), old(closed), room)
    {
      hide Notified, CalledBack;
      timer := NoTimer;
      clock := now;
      if !ok {
        NothingToNotify(room);
        return;
      }
      if now - lastActivity >= HEARTBEAT_TIMEOUT {
        HandleClose(now, room);
        return;
      }
      SendKeepalive(now, room);
      StartHeartbeat(now);
    }

    method SendKeepalive(now: nat, room: bool)
      modifies this, core
      ensures View() == Automaton.EnqueueWrite(old(View()), KEEPALIVE_FRAME, now, false) && posted == old(posted)
      ensures Notified(old(core.View()), old(core.tasks), old(closed), room)
    {
      hide Notified, CalledBack;
      KeepaliveIsEncoded();
      EnqueueWrite(EncodeFrame(FLAG_KEEPALIVE, []), now, room);
    }

    method HandleClose(now: nat, room: bool)
      modifies this`closed, this`timer, this`clock, core
      ensures View() == Close(old(View()), now)
      ensures Notified(old(core.View()), old(core.tasks), old(closed), room)
    {
      clock := now;
      if closed {
        return;
      }
      closed := true;
      timer := CancelTimer(timer, now);
      var _ := core.PushPacket(Disconnect(id), room);
      core.Post(EraseTask(id));
    }
  }
}
