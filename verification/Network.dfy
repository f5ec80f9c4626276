/**
 * The whole transport as one transition system: game thread, server strand, session strands, sockets, and at the other
 * end of every connection either a client of this library or some other peer, which may send any bytes. A move is one
 * handler, one call of the public API, or one move of the kernel.
 */
module Network {
  import opened Bytes
  import opened Codec
  import opened Endpoint
  import opened PacketQueue

  const RECEIVE_QUEUE_CAPACITY := 4096

  /** Closures posted to the server strand. */
  datatype Task =
    | SendTask(id: u32, frame: Bytes)
    | BroadcastTask(frame: Bytes)
    | DisconnectTask(id: u32)
    | EraseTask(id: u32)
    | CloseAllTask

  /** Closures posted to a session's strand. */
  datatype Post = EnqueuePost(frame: Bytes) | ClosePost

  /** Calls of the game thread that hand over a payload. */
  datatype Op = SendOp(id: u32, payload: Bytes) | BroadcastOp(payload: Bytes)

  /** History: `issued` payloads were taken by send, `polled` payloads were returned by poll_packet. */
  datatype Client = Client(
    ep: Endpoint, posted: seq<Bytes>, stopping: bool, received: seq<Bytes>, dropped: nat,
    issued: seq<Bytes>, polled: seq<Bytes>)

  /** A library client started its reads at `start` and stamped its idle clock at `activity`, before connecting. */
  datatype Peer = Library(start: nat, activity: nat) | Foreign

  /**
   * One accepted connection; with a foreign peer, `client` stays unused. History: its place among the accepts, and the
   * game thread's calls executed before it.
   */
  datatype Conn = Conn(
    id: u32, serial: nat, joinedAt: nat, posted: seq<Post>, server: Endpoint, client: Client, foreign: bool)

  /** `table` maps the ids in the session map to positions in `conns`, which keeps every connection ever started. */
  datatype Net = Net(
    nextId: u32, table: map<u32, nat>, tasks: seq<Task>, inbox: Inbox, conns: seq<Conn>,
    accepts: nat, issued: seq<Op>, executed: nat)

  const InitialNet := Net(1, map[], [], EmptyInbox, [], 0, [], 0)

  datatype Move =
    | GameSend(id: u32, payload: Bytes)
    | GameBroadcast(payload: Bytes)
    | GameDisconnect(id: u32)
    | GamePoll
    | GameShutdown
    | Accept(now: nat, room: bool, late: bool, peer: Peer)
    | RunTask
    | SessionPost(n: nat, now: nat, room: bool)
    | SessionIo(n: nat, action: Action, now: nat, room: bool)
    | ClientSend(n: nat, payload: Bytes)
    | ClientPost(n: nat, now: nat)
    | ClientIo(n: nat, action: Action, now: nat, room: bool)
    | ClientPoll(n: nat)
    | ClientShutdown(n: nat)
    | ClientForceClose(n: nat, now: nat)

  // ----- Server side -----

  /** The payload a session passes to its receive callback. */
  function Delivered(e: Endpoint, a: Action, stop: bool): seq<Bytes> {
    if a.OnBody? && a.ok && !stop && !a.late && e.inlet.op.Read? then [e.inlet.op.got] else []
  }

  function CallbackPackets(id: u32, e: Endpoint, a: Action, now: nat): (ps: seq<Packet>)
    requires Enabled(e, a, now)
    ensures |ps| <= 1
  {
    if Delivered(e, a, false) != [] then [Data(id, Delivered(e, a, false)[0])]
    else if !e.closed && Apply(e, a, now, false).closed then [Disconnect(id)]
    else []
  }

  function StepSession(net: Net, n: nat, a: Action, now: nat, room: bool): Net
    requires n < |net.conns| && Enabled(net.conns[n].server, a, now)
  {
    var c := net.conns[n];
    var e' := Apply(c.server, a, now, false);
    net.(conns := net.conns[n := c.(server := e')],
         inbox := PushAll(net.inbox, CallbackPackets(c.id, c.server, a, now), room),
         tasks := if !c.server.closed && e'.closed then net.tasks + [EraseTask(c.id)] else net.tasks)
  }

  predicate Listed(net: Net, i: nat)
    requires i < |net.conns|
  {
    net.conns[i].id in net.table && net.table[net.conns[i].id] == i
  }

  /** Posts a closure to every session in the map. */
  function PostToAll(net: Net, post: Post): (conns: seq<Conn>)
    ensures |conns| == |net.conns|
    ensures forall i :: 0 <= i < |conns| ==>
              conns[i] == if Listed(net, i) then net.conns[i].(posted := net.conns[i].posted + [post]) else net.conns[i]
  {
    seq(|net.conns|, i requires 0 <= i < |net.conns| =>
      if Listed(net, i) then net.conns[i].(posted := net.conns[i].posted + [post]) else net.conns[i])
  }

  function PostTo(net: Net, id: u32, post: Post): Net {
    if id in net.table && net.table[id] < |net.conns| then
      var n := net.table[id];
      net.(conns := net.conns[n := net.conns[n].(posted := net.conns[n].posted + [post])])
    else net
  }

  function StepTask(net: Net): Net
    requires net.tasks != []
  {
    var task, net := net.tasks[0], net.(tasks := net.tasks[1..]);
    match task
    case SendTask(id, frame) =>
      var net := net.(executed := net.executed + 1);
      if net.inbox.stopping then net else PostTo(net, id, EnqueuePost(frame))
    case BroadcastTask(frame) =>
      var net := net.(executed := net.executed + 1);
      if net.inbox.stopping then net else net.(conns := PostToAll(net, EnqueuePost(frame)))
    case DisconnectTask(id) => if net.inbox.stopping then net else PostTo(net, id, ClosePost)
    case EraseTask(id) => net.(table := net.table - {id})
    case CloseAllTask => net.(conns := PostToAll(net, ClosePost))
  }

  /** The first call of shutdown() sets the flag and posts the closing of all sessions. */
  function ShutDown(net: Net): Net {
    if net.inbox.stopping then net else net.(inbox := Stop(net.inbox), tasks := net.tasks + [CloseAllTask])
  }

  function FreshClient(start: nat, activity: nat): Client {
    Client(StartedAfter(start, activity), [], false, [], 0, [], [])
  }

  function Joined(id: u32, serial: nat, joinedAt: nat, now: nat, peer: Peer): Conn {
    Conn(id, serial, joinedAt, [], Started(now),
         if peer.Library? then FreshClient(peer.start, peer.activity) else FreshClient(now, now), peer.Foreign?)
  }

  function StepAccept(net: Net, now: nat, room: bool, peer: Peer): Net {
    var id := net.nextId;
    var pushed := Succeeds(net.inbox, room);
    var net := net.(nextId := (id + 1) % 0x1_0000_0000, accepts := net.accepts + 1,
                    inbox := Push(net.inbox, Connect(id), room));
    if !pushed then net
    else
      // emplace: an id that is still listed keeps its old session
      net.(conns := net.conns + [Joined(id, net.accepts - 1, net.executed, now, peer)],
           table := if id in net.table then net.table else net.table[id := |net.conns|])
  }

  // ----- Client side -----

  function StepClient(c: Client, a: Action, now: nat, room: bool): Client
    requires Enabled(c.ep, a, now)
  {
    var got := Delivered(c.ep, a, c.stopping);
    var c' := c.(ep := Apply(c.ep, a, now, c.stopping), stopping := c.stopping || (a.OnBody? && a.late));
    if got == [] then c'
    else if room && |c.received| < RECEIVE_QUEUE_CAPACITY then c'.(received := c.received + got)
    else c'.(dropped := c.dropped + 1)
  }

  function SendFromClient(c: Client, payload: Bytes): Client {
    if SendablePayload(payload) && !c.ep.closed && !c.stopping then
      c.(posted := c.posted + [DataFrame(payload)], issued := c.issued + [payload])
    else c
  }

  function PollClient(c: Client): Client {
    if c.received == [] then c else c.(received := c.received[1..], polled := c.polled + [c.received[0]])
  }

  // ----- Moves -----

  /**
   * I/O steps are completions and kernel moves; bytes taken off the wire are the next ones the peer put on it, or any
   * bytes if the peer is foreign.
   */
  predicate IoAllowed(me: Endpoint, peer: Endpoint, foreign: bool, a: Action, now: nat) {
    && Enabled(me, a, now) && !a.PushFrame? && !a.CloseNow? && !a.ForceCloseNow?
    && (a.DoTake? && !foreign ==> me.inlet.incoming + a.chunk <= peer.out.sent)
  }

  /** The moves of a client need one at the other end. */
  predicate HasClient(net: Net, n: nat) {
    n < |net.conns| && !net.conns[n].foreign
  }

  function PostAction(p: Post): Action {
    match p case EnqueuePost(frame) => PushFrame(frame) case ClosePost => CloseNow
  }

  predicate Allowed(net: Net, m: Move) {
    match m
    case GameSend(_, _) => true
    case GameBroadcast(_) => true
    case GameDisconnect(_) => true
    case GamePoll => true
    case GameShutdown => true
    case Accept(_, _, _, peer) => !net.inbox.stopping && (peer.Library? ==> peer.activity <= peer.start)
    case RunTask => net.tasks != []
    case SessionPost(n, now, _) =>
      n < |net.conns| && net.conns[n].posted != []
      && Enabled(net.conns[n].server, PostAction(net.conns[n].posted[0]), now)
    case SessionIo(n, a, now, _) =>
      && n < |net.conns| && !(a.OnBody? && a.late)
      && IoAllowed(net.conns[n].server, net.conns[n].client.ep, net.conns[n].foreign, a, now)
    case ClientSend(n, _) => HasClient(net, n)
    case ClientPost(n, now) =>
      HasClient(net, n) && net.conns[n].client.posted != []
      && Enabled(net.conns[n].client.ep, PushFrame(net.conns[n].client.posted[0]), now)
    case ClientIo(n, a, now, _) =>
      HasClient(net, n) && IoAllowed(net.conns[n].client.ep, net.conns[n].server, false, a, now)
    case ClientPoll(n) => HasClient(net, n)
    case ClientShutdown(n) => HasClient(net, n)
    case ClientForceClose(n, now) =>
      HasClient(net, n) && net.conns[n].client.stopping && Enabled(net.conns[n].client.ep, ForceCloseNow, now)
  }

  function WithClient(net: Net, n: nat, c: Client): Net
    requires n < |net.conns|
  {
    net.(conns := net.conns[n := net.conns[n].(client := c)])
  }

  function Next(net: Net, m: Move): Net
    requires Allowed(net, m)
  {
    match m
    case GameSend(id, payload) =>
      if SendablePayload(payload) && !net.inbox.stopping then
        net.(tasks := net.tasks + [SendTask(id, DataFrame(payload))], issued := net.issued + [SendOp(id, payload)])
      else net
    case GameBroadcast(payload) =>
      if SendablePayload(payload) && !net.inbox.stopping then
        net.(tasks := net.tasks + [BroadcastTask(DataFrame(payload))], issued := net.issued + [BroadcastOp(payload)])
      else net
    case GameDisconnect(id) =>
      if net.inbox.stopping then net else net.(tasks := net.tasks + [DisconnectTask(id)])
    case GamePoll => net.(inbox := Poll(net.inbox))
    case GameShutdown => ShutDown(net)
    // late: shutdown() is called by another thread between the handler's test of the flag and push_packet's
    case Accept(now, room, late, peer) => StepAccept(if late then ShutDown(net) else net, now, room, peer)
    case RunTask => StepTask(net)
    case SessionPost(n, now, room) =>
      var c := net.conns[n];
      var popped := net.(conns := net.conns[n := c.(posted := c.posted[1..])]);
      StepSession(popped, n, PostAction(c.posted[0]), now, room)
    case SessionIo(n, a, now, room) => StepSession(net, n, a, now, room)
    case ClientSend(n, payload) => WithClient(net, n, SendFromClient(net.conns[n].client, payload))
    case ClientPost(n, now) =>
      var c := net.conns[n].client;
      WithClient(net, n, StepClient(c.(posted := c.posted[1..]), PushFrame(c.posted[0]), now, true))
    case ClientIo(n, a, now, room) => WithClient(net, n, StepClient(net.conns[n].client, a, now, room))
    case ClientPoll(n) => WithClient(net, n, PollClient(net.conns[n].client))
    case ClientShutdown(n) => WithClient(net, n, net.conns[n].client.(stopping := true))
    case ClientForceClose(n, now) => WithClient(net, n, StepClient(net.conns[n].client, ForceCloseNow, now, true))
  }

  /** The state after a run; a move that is not possible where it stands changes nothing. */
  function After(moves: seq<Move>): Net {
    if moves == [] then InitialNet
    else
      var before := After(moves[..|moves| - 1]);
      if Allowed(before, moves[|moves| - 1]) then Next(before, moves[|moves| - 1]) else before
  }

  /** A move of the I/O threads or of a client, while nobody shuts the server down. */
  predicate OfOthers(m: Move) {
    && !m.GameSend? && !m.GameBroadcast? && !m.GameDisconnect? && !m.GamePoll? && !m.GameShutdown?
    && !(m.Accept? && m.late)
  }

  lemma OneMoveMore(moves: seq<Move>, m: Move)
    requires Allowed(After(moves), m)
    ensures After(moves + [m]) == Next(After(moves), m)
  {
    assert (moves + [m])[..|moves|] == moves;
  }
}
