/** The client's end of a connection: the handlers of its I/O thread and the calls of its game thread. */
module Clients {
  import opened Bytes
  import opened Codec
  import opened Endpoint
  import Automaton = Endpoint
  import Network
  import opened Frames

  /** A step without a payload for the game thread changes the automaton only. */
  lemma OrdinaryStep(c: Network.Client, a: Action, now: nat, room: bool)
    requires Enabled(c.ep, a, now) && !a.OnBody?
    ensures Network.StepClient(c, a, now, room) == c.(ep := Apply(c.ep, a, now, c.stopping))
  {
    hide Apply;
  }

  lemma BodyStep(c: Network.Client, ok: bool, late: bool, now: nat, room: bool)
    requires Enabled(c.ep, OnBody(ok, late), now)
    ensures var quiet := c.(ep := BodyDone(c.ep, ok, late, now, c.stopping), stopping := c.stopping || late);
            Network.StepClient(c, OnBody(ok, late), now, room)
            == if !ok || c.stopping || late then quiet
               else if room && |c.received| < Network.RECEIVE_QUEUE_CAPACITY then
                 quiet.(received := c.received + [c.ep.inlet.op.got])
               else quiet.(dropped := c.dropped + 1)
  {
    hide BodyDone;
  }

  lemma BlockedWrite(e: Endpoint, frame: Bytes, now: nat)
    ensures Automaton.EnqueueWrite(e, frame, now, true) == e.(out := Enqueue(e.out, frame, true), clock := now)
  {
  }

  class Client {
    var headerBuf: Bytes
    var bodyBuf: Bytes
    var writeQueue: seq<Bytes>
    var writing: bool
    var connected: bool
    var shuttingDown: bool
    var lastActivity: nat
    var receiveQueue: seq<Bytes>
    var droppedPackets: nat

    // what the I/O library holds: the operations under way and the frames in posted closures
    var readOp: ReadOp
    var writeOp: WriteOp
    var timer: TimerOp
    var posted: seq<Bytes>

    ghost var popped: seq<Bytes>
    ghost var sent: Bytes
    ghost var pushed: multiset<Bytes>
    ghost var released: multiset<Bytes>
    ghost var incoming: Bytes
    ghost var heard: seq<Bytes>
    ghost var clock: nat
    ghost var issued: seq<Bytes>
    ghost var polled: seq<Bytes>

    ghost function End(): Endpoint
      reads this`writeQueue, this`writing, this`writeOp, this`popped, this`sent, this`pushed, this`released,
            this`headerBuf, this`readOp, this`incoming, this`heard, this`connected, this`timer, this`lastActivity,
                this`clock
    {
      Endpoint(Outbox(writeQueue, writing, writeOp, popped, sent, pushed, released),
               Inlet(headerBuf, readOp, incoming, heard), !connected, timer, lastActivity, clock)
    }

    ghost function View(): Network.Client
      reads this
    {
      Network.Client(End(), posted, shuttingDown, receiveQueue, droppedPackets, issued, polled)
    }

    /** A connected client whose reads and heartbeat have started; the idle clock was stamped before it connected. */
    constructor (now: nat, activity: nat)
      ensures View() == Network.FreshClient(now, activity)
    {
      headerBuf, bodyBuf, writeQueue, writing, connected, shuttingDown := [], [], [], false, true, false;
      lastActivity, receiveQueue, droppedPackets := activity, [], 0;
      readOp, writeOp, timer, posted := NoRead, NoWrite, NoTimer, [];
      popped, sent, pushed, released, incoming, heard, clock := [], [], multiset{}, multiset{}, [], [], now;
      issued, polled := [], [];
      new;
      DoReadHeader();
      StartHeartbeat(now);
    }

    // ----- The game thread -----

    method Send(payload: Bytes)
      modifies this`posted, this`issued
      ensures View() == Network.SendFromClient(old(View()), payload)
    {
      if payload == [] || |payload| > MAX_PAYLOAD_SIZE {
        return;
      }
      if !connected {
        return;
      }
      if shuttingDown {
        return;
      }
      BuilderIsFaithfulExactlyInBounds(payload);
      posted := posted + [EncodeDataFrame(payload)];
      issued := issued + [payload];
    }

    method PollPacket() returns (p: Option<Bytes>)
      modifies this`receiveQueue, this`polled
      ensures View() == Network.PollClient(old(View()))
      ensures p == if old(receiveQueue) == [] then None else Some(old(receiveQueue)[0])
    {
      if receiveQueue == [] {
        return None;
      }
      p := Some(receiveQueue[0]);
      polled := polled + [receiveQueue[0]];
      receiveQueue := receiveQueue[1..];
    }

    method RequestShutdown()
      modifies this`shuttingDown
      ensures View() == old(View()).(stopping := true)
    {
      shuttingDown := true;
    }

    // ----- The I/O thread -----

    /** The closure posted by Send. */
    method RunPosted(now: nat)
      requires posted != [] && Enabled(End(), PushFrame(posted[0]), now)
      modifies this`posted, this`writeQueue, this`writing, this`writeOp, this`pushed, this`released,
               this`clock, this`connected, this`timer
      ensures var before := old(View());
              View() == Network.StepClient(before.(posted := before.posted[1..]), PushFrame(before.posted[0]), now,
                  true)
    {
      hide End, Automaton.EnqueueWrite, Enqueue, Network.StepClient;
      var frame := posted[0];
      posted := posted[1..];
      OrdinaryStep(View(), PushFrame(frame), now, true);
      if shuttingDown {
        BlockedWrite(End(), frame, now);
        Tick(now);
        ReleaseFrame(frame);
        return;
      }
      EnqueueFrame(frame, now);
    }

    ghost method Tick(now: nat)
      modifies this`clock
      ensures End() == old(End()).(clock := now)
    {
      clock := now;
    }

    /**
     * Runs one handler, the shutdown closure, or one move of the kernel. `room`: whether the receive queue finds room.
     */
    method Step(a: Action, now: nat, room: bool)
      requires Enabled(End(), a, now) && !a.CloseNow? && !a.PushFrame?
      modifies this`readOp, this`headerBuf, this`bodyBuf, this`lastActivity, this`heard, this`incoming, this`clock,
               this`connected,
               this`timer, this`writeQueue, this`writing, this`writeOp, this`pushed, this`released, this`popped,
                   this`sent,
               this`shuttingDown, this`receiveQueue, this`droppedPackets
      ensures View() == Network.StepClient(old(View()), a, now, room)
    {
      hide End, HeaderDone, BodyDone, WriteDone, TimerFired, ForceClose, DecodeHeader, Transmit, Take,
           Network.StepClient, Network.Delivered;
      if a.OnBody? {
        BodyStep(View(), a.ok, a.late, now, room);
      } else {
        OrdinaryStep(View(), a, now, room);
      }
      match a {
        case ForceCloseNow => ShutDown(now);
        case OnHeader(ok) => HeaderRead(ok, now);
        case OnBody(ok, late) => BodyRead(ok, late, now, room);
        case OnWritten(ok) => Written(ok, now);
        case OnTimer(ok) => TimerExpired(ok, now);
        case DoTransmit(k) => BytesLeave(k, now);
        case DoTake(chunk) => BytesArrive(chunk, now);
      }
    }

    method HandleDisconnect(now: nat)
      modifies this`connected, this`timer, this`clock
      ensures End() == Close(old(End()), now)
    {
      clock := now;
      var was := connected;
      connected := false;
      if !was {
        return;
      }
      CloseSocket(now);
    }

    method CloseSocket(now: nat)
      modifies this`timer
      ensures timer == CancelTimer(old(timer), now)
    {
      timer := CancelTimer(timer, now);
    }

    /** The closure that shutdown() posts. */
    method ShutDown(now: nat)
      modifies this`connected, this`timer, this`clock
      ensures End() == ForceClose(old(End()), now)
    {
      clock := now;
      connected := false;
      CloseSocket(now);
    }

    method BytesLeave(k: nat, now: nat)
      requires CanTransmit(End().out, k)
      modifies this`sent, this`writeOp, this`clock
      ensures End() == old(End()).(out := Transmit(old(End().out), k), clock := now)
    {
      sent := sent + writeQueue[0][writeOp.done..writeOp.done + k];
      writeOp := Write(writeOp.done + k, false);
      clock := now;
    }

    method BytesArrive(chunk: Bytes, now: nat)
      requires CanTake(End().inlet, chunk)
      modifies this`incoming, this`readOp, this`clock
      ensures End() == old(End()).(inlet := Take(old(End().inlet), chunk), clock := now)
    {
      readOp := readOp.(got := readOp.got + chunk);
      incoming := incoming + chunk;
      clock := now;
    }

    method DoReadHeader()
      modifies this`readOp
      ensures End() == old(End()).(inlet := StartHeaderRead(old(End().inlet), !connected))
    {
      readOp := Read(Head, HEADER_SIZE, [], !connected);
    }

    method HeaderRead(ok: bool, now: nat)
      requires CanFinishRead(End().inlet, Head, ok) && (ok ==> HEADER_SIZE <= |End().inlet.op.got|)
      modifies this`readOp, this`headerBuf, this`bodyBuf, this`lastActivity, this`heard, this`clock, this`connected,
               this`timer
      ensures End() == HeaderDone(old(End()), ok, now, shuttingDown)
    {
      hide DecodeHeader, Close, StartHeaderRead;
      var got := readOp.got;
      readOp := NoRead;
      if !ok || shuttingDown {
        HandleDisconnect(now);
        return;
      }
      headerBuf := got;
      var head := DecodeHeader(headerBuf);
      if head.Err? {
        HandleDisconnect(now);
        return;
      }
      AcceptedSize(headerBuf);
      HeaderAccepted(head.header, now);
    }

    method HeaderAccepted(header: Header, now: nat)
      requires 0 <= header.payloadSize && readOp.NoRead?
      modifies this`lastActivity, this`clock, this`heard, this`bodyBuf, this`readOp
      ensures End() == old(End()).(
                inlet := if header.IsKeepalive()
                    then StartHeaderRead(old(End().inlet).(heard := old(heard) + [headerBuf]), !connected)
                         else old(End().inlet).(op := Read(Body, header.payloadSize, [], !connected)),
                lastActivity := now, clock := now)
    {
      lastActivity := now;
      clock := now;
      if header.IsKeepalive() {
        heard := heard + [headerBuf];
        DoReadHeader();
        return;
      }
      bodyBuf := seq(header.payloadSize, _ => 0);
      DoReadBody();
    }

    method DoReadBody()
      modifies this`readOp
      ensures End() == old(End()).(inlet := old(End().inlet).(op := Read(Body, |bodyBuf|, [], !connected)))
    {
      readOp := Read(Body, |bodyBuf|, [], !connected);
    }

    /** `late`: another thread sets the flag between the two tests below. */
    method BodyRead(ok: bool, late: bool, now: nat, room: bool)
      requires CanFinishRead(End().inlet, Body, ok)
      modifies this`readOp, this`bodyBuf, this`heard, this`clock, this`connected, this`timer,
               this`shuttingDown, this`receiveQueue, this`droppedPackets
      ensures End() == BodyDone(old(End()), ok, late, now, old(shuttingDown))
      ensures shuttingDown == (old(shuttingDown) || late)
      ensures !ok || old(shuttingDown) || late
              ==> receiveQueue == old(receiveQueue) && droppedPackets == old(droppedPackets)
      ensures ok && !old(shuttingDown) && !late ==>
                if room && |old(receiveQueue)| < Network.RECEIVE_QUEUE_CAPACITY then
                  receiveQueue == old(receiveQueue) + [old(End().inlet.op.got)] && droppedPackets == old(droppedPackets)
                else
                  receiveQueue == old(receiveQueue) && droppedPackets == old(droppedPackets) + 1
    {
      hide End, Close, StartHeaderRead;
      var stop := shuttingDown;
      shuttingDown := shuttingDown || late;
      if !ok || stop {
        BodyFailed();
        HandleDisconnect(now);
        return;
      }
      BodyArrived(now);
      if shuttingDown {
        return;
      }
      Deliver(bodyBuf, room);
      ReadNextFrame();
    }

    method BodyFailed()
      modifies this`readOp
      ensures End() == old(End()).(inlet := old(End().inlet).(op := NoRead))
    {
      readOp := NoRead;
    }

    /** The payload is in the body buffer. */
    method BodyArrived(now: nat)
      requires CanFinishRead(End().inlet, Body, true)
      modifies this`readOp, this`bodyBuf, this`clock
      ensures End() == old(End()).(inlet := old(End().inlet).(op := NoRead), clock := now)
      ensures bodyBuf == old(End().inlet.op.got)
    {
      bodyBuf := readOp.got;
      readOp := NoRead;
      clock := now;
    }

    method ReadNextFrame()
      modifies this`readOp, this`heard
      ensures var inlet := old(End().inlet);
              var heard := inlet.heard + [inlet.headerBuf + bodyBuf];
              End() == old(End()).(inlet := StartHeaderRead(inlet.(heard := heard), old(End().closed)))
    {
      heard := heard + [headerBuf + bodyBuf];
      DoReadHeader();
    }

    method Deliver(payload: Bytes, room: bool)
      modifies this`receiveQueue, this`droppedPackets
      ensures if room && |old(receiveQueue)| < Network.RECEIVE_QUEUE_CAPACITY then
                receiveQueue == old(receiveQueue) + [payload] && droppedPackets == old(droppedPackets)
              else
                receiveQueue == old(receiveQueue) && droppedPackets == old(droppedPackets) + 1
    {
      if room && |receiveQueue| < Network.RECEIVE_QUEUE_CAPACITY {
        receiveQueue := receiveQueue + [payload];
      } else {
        droppedPackets := droppedPackets + 1;
      }
    }

    method EnqueueFrame(frame: Bytes, now: nat)
      modifies this`writeQueue, this`writing, this`writeOp, this`pushed, this`released, this`clock, this`connected,
               this`timer
      ensures End() == Automaton.EnqueueWrite(old(End()), frame, now, shuttingDown)
    {
      hide Close, Enqueue;
      clock := now;
      if shuttingDown || !connected {
        ReleaseFrame(frame);
        return;
      }
      var taken := QueueFrame(frame);
      if !taken {
        ReleaseFrame(frame);
        HandleDisconnect(now);
      }
    }

    method ReleaseFrame(frame: Bytes)
      requires shuttingDown || !connected || QueueFull(End().out)
      modifies this`pushed, this`released
      ensures End() == old(End()).(out := Enqueue(old(End().out), frame, shuttingDown || !connected))
    {
      pushed := pushed + multiset{frame};
      released := released + multiset{frame};
    }

    /** The shared queue step; the frame is taken only when there is room. */
    method QueueFrame(frame: Bytes) returns (taken: bool)
      modifies this`writeQueue, this`writing, this`writeOp, this`pushed
      requires connected
      ensures taken == !QueueFull(old(End().out))
      ensures !taken ==> End() == old(End())
      ensures taken ==> End() == old(End()).(out := Enqueue(old(End().out), frame, false))
    {
      if |writeQueue| >= MAX_PENDING_WRITE_FRAMES {
        return false;
      }
      pushed := pushed + multiset{frame};
      writeQueue := writeQueue + [frame];
      if !writing {
        DoWrite();
      }
      return true;
    }

    method DoWrite()
      requires writeQueue == [] ==> writeOp.NoWrite?
      modifies this`writing, this`writeOp
      ensures End() == old(End()).(out := Automaton.DoWrite(old(End().out), !connected))
    {
      if writeQueue == [] {
        writing := false;
        return;
      }
      writing := true;
      writeOp := Write(0, !connected);
    }

    method PopFrontFrame()
      requires writeQueue != []
      modifies this`writeOp, this`writeQueue, this`released, this`popped
      ensures End() == old(End()).(out := PopFront(old(End().out))) && writeOp.NoWrite?
    {
      writeOp := NoWrite;
      released := released + multiset{writeQueue[0]};
      popped := popped + [writeQueue[0]];
      writeQueue := writeQueue[1..];
    }

    method Written(ok: bool, now: nat)
      requires CanFinishWrite(End().out, ok)
      modifies this`writeOp, this`writeQueue, this`released, this`popped, this`writing, this`clock, this`connected,
               this`timer
      ensures End() == WriteDone(old(End()), ok, now, shuttingDown)
    {
      hide PopFront, Close, Automaton.DoWrite;
      PopFrontFrame();
      if !ok || shuttingDown {
        HandleDisconnect(now);
        return;
      }
      clock := now;
      DoWrite();
    }

    method StartHeartbeat(now: nat)
      modifies this`timer
      ensures timer == Timer(now + HEARTBEAT_INTERVAL, None)
    {
      timer := Timer(now + HEARTBEAT_INTERVAL, None);
    }

    method TimerExpired(ok: bool, now: nat)
      requires CanFireTimer(End(), ok, now)
      modifies this`writeQueue, this`writing, this`writeOp, this`pushed, this`released, this`clock, this`connected,
               this`timer
      ensures End() == TimerFired(old(End()), ok, now, shuttingDown)
    {
      hide Close, Automaton.EnqueueWrite;
      timer := NoTimer;
      clock := now;
      if !ok {
        return;
      }
      if now - lastActivity >= HEARTBEAT_TIMEOUT {
        HandleDisconnect(now);
        return;
      }
      SendKeepalive(now);
      StartHeartbeat(now);
    }

    method SendKeepalive(now: nat)
      modifies this`writeQueue, this`writing, this`writeOp, this`pushed, this`released, this`clock, this`connected,
               this`timer
      ensures End() == Automaton.EnqueueWrite(old(End()), KEEPALIVE_FRAME, now, shuttingDown)
    {
      KeepaliveIsEncoded();
      EnqueueFrame(EncodeFrame(FLAG_KEEPALIVE, []), now);
    }
  }
}
