/** What the session callbacks and the server share: the packet queue, the shutdown flag and the server strand. */
module ServerCores {
  import opened Bytes
  import opened PacketQueue
  import opened Network

  class ServerCore {
    var packetQueue: seq<Packet>
    var droppedPackets: nat
    var shuttingDown: bool
    // closures posted to the server strand, oldest first
    var tasks: seq<Task>

    ghost var offered: seq<Packet>
    ghost var polled: seq<Packet>
    ghost var refused: nat

    ghost function View(): Inbox
      reads this`packetQueue, this`droppedPackets, this`shuttingDown, this`offered, this`polled, this`refused
    {
      Inbox(packetQueue, droppedPackets, shuttingDown, offered, polled, refused)
    }

    constructor ()
      ensures View() == EmptyInbox && tasks == []
    {
      packetQueue, droppedPackets, shuttingDown, tasks := [], 0, false, [];
      offered, polled, refused := [], [], 0;
    }

    /** `room`: whether the lock-free queue takes the packet; at capacity it never does. */
    method PushPacket(p: Packet, room: bool) returns (pushed: bool)
      modifies this
      ensures View() == Push(old(View()), p, room) && pushed == Succeeds(old(View()), room)
      ensures tasks == old(tasks)
    {
      offered := offered + [p];
      if shuttingDown {
        refused := refused + 1;
        return false;
      }
      if room && |packetQueue| < PACKET_QUEUE_CAPACITY {
        packetQueue := packetQueue + [p];
        return true;
      }
      droppedPackets := droppedPackets + 1;
      return false;
    }

    method PollPacket() returns (p: Option<Packet>)
      modifies this
      ensures View() == Poll(old(View())) && tasks == old(tasks)
      ensures p == if old(packetQueue) == [] then None else Some(old(packetQueue)[0])
    {
      if packetQueue == [] {
        return None;
      }
      p := Some(packetQueue[0]);
      polled := polled + [packetQueue[0]];
      packetQueue := packetQueue[1..];
    }

    method Post(t: Task)
      modifies this
      ensures tasks == old(tasks) + [t] && View() == old(View())
    {
      tasks := tasks + [t];
    }
  }
}
