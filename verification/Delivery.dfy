/** End-to-end delivery: what a client polls against what the game thread sent, over every run of the network. */
module Delivery {
  import opened Bytes
  import opened Codec
  import Stream
  import opened Endpoint
  import opened PacketQueue
  import opened Network
  import opened Channel

  /** The payload a call has for session `id`. */
  function PayloadFor(id: u32, op: Op): seq<Bytes> {
    match op
    case SendOp(to, payload) => if to == id then [payload] else []
    case BroadcastOp(payload) => [payload]
  }

  /** The payloads a sequence of calls has for session `id`, in order. */
  function For(id: u32, ops: seq<Op>): seq<Bytes> {
    if ops == [] then [] else For(id, ops[..|ops| - 1]) + PayloadFor(id, ops[|ops| - 1])
  }

  lemma {:induction false} ForConcat(id: u32, a: seq<Op>, b: seq<Op>)
    ensures For(id, a + b) == For(id, a) + For(id, b)
  {
    if b == [] {
      assert a + b == a;
    } else {
      ForConcat(id, a, b[..|b| - 1]);
      assert (a + b)[..|a + b| - 1] == a + b[..|b| - 1];
      ConcatAssoc(For(id, a), For(id, b[..|b| - 1]), PayloadFor(id, b[|b| - 1]));
    }
  }

  // ----- The server strand -----

  /** The calls whose closures wait on the server strand. */
  function CallsIn(tasks: seq<Task>): seq<Op> {
    if tasks == [] then []
    else CallOf(tasks[0]) + CallsIn(tasks[1..])
  }

  function CallOf(t: Task): seq<Op> {
    match t
    case SendTask(id, frame) => if HEADER_SIZE <= |frame| then [SendOp(id, frame[HEADER_SIZE..])] else []
    case BroadcastTask(frame) => if HEADER_SIZE <= |frame| then [BroadcastOp(frame[HEADER_SIZE..])] else []
    case _ => []
  }

  lemma {:induction false} CallsInSnoc(tasks: seq<Task>, t: Task)
    ensures CallsIn(tasks + [t]) == CallsIn(tasks) + CallOf(t)
  {
    if tasks == [] {
      assert tasks + [t] == [t];
      assert CallsIn([t]) == CallOf(t) + CallsIn([]);
    } else {
      CallsInSnoc(tasks[1..], t);
      assert (tasks + [t])[1..] == tasks[1..] + [t];
      ConcatAssoc(CallOf(tasks[0]), CallsIn(tasks[1..]), CallOf(t));
    }
  }

  ghost predicate TaskOk(t: Task) {
    && (t.SendTask? ==> LegalData(t.frame))
    && (t.BroadcastTask? ==> LegalData(t.frame))
  }

  /** The strand holds exactly the calls issued and not yet executed, in order. */
  ghost predicate StrandOk(net: Net) {
    && net.executed <= |net.issued|
    && (forall t :: t in net.tasks ==> TaskOk(t))
    && CallsIn(net.tasks) == net.issued[net.executed..]
  }

  ghost predicate TableOk(net: Net) {
    forall id :: id in net.table ==> net.table[id] < |net.conns| && net.conns[net.table[id]].id == id
  }

  /**
   * A session has been handed nothing but the payloads of calls executed since it joined, in order; all of
   * them, as long as it is listed and open and the server is running (`exact`).
   */
  ghost predicate Fed(issued: seq<Op>, executed: nat, c: Conn, exact: bool) {
    && c.joinedAt <= executed <= |issued|
    && HandedToSession(c) <= For(c.id, issued[c.joinedAt..executed])
    && (exact && !c.server.closed ==> HandedToSession(c) == For(c.id, issued[c.joinedAt..executed]))
  }

  predicate Exact(net: Net, i: nat)
    requires i < |net.conns|
  {
    Listed(net, i) && !net.inbox.stopping
  }

  ghost predicate NetOk(net: Net) {
    && StrandOk(net) && TableOk(net)
    && (forall i :: 0 <= i < |net.conns| ==> ConnOk(net.conns[i]))
    && (forall i :: 0 <= i < |net.conns| ==> Fed(net.issued, net.executed, net.conns[i], Exact(net, i)))
  }

  lemma NetOkAt(net: Net, i: nat)
    requires NetOk(net) && i < |net.conns|
    ensures ConnOk(net.conns[i]) && Fed(net.issued, net.executed, net.conns[i], Exact(net, i))
  {
  }

  // ----- Game thread calls -----

  lemma CallIssued(net: Net, op: Op, t: Task)
    requires NetOk(net) && TaskOk(t) && CallOf(t) == [op]
    ensures NetOk(net.(tasks := net.tasks + [t], issued := net.issued + [op]))
  {
    hide ConnOk, HandedToSession, For, CallsIn, CallOf, LegalData;
    var net' := net.(tasks := net.tasks + [t], issued := net.issued + [op]);
    CallsInSnoc(net.tasks, t);
    assert net'.issued[net.executed..] == net.issued[net.executed..] + [op];
    forall i | 0 <= i < |net'.conns| ensures Fed(net'.issued, net'.executed, net'.conns[i], Exact(net', i)) {
      assert Fed(net.issued, net.executed, net.conns[i], Exact(net, i));
      var j := net.conns[i].joinedAt;
      assert net'.issued[j..net.executed] == net.issued[j..net.executed];
    }
  }

  lemma TaskPosted(net: Net, t: Task)
    requires NetOk(net) && CallOf(t) == [] && TaskOk(t)
    ensures NetOk(net.(tasks := net.tasks + [t]))
  {
    CallsInSnoc(net.tasks, t);
    assert CallsIn(net.tasks) + [] == CallsIn(net.tasks);
    var net' := net.(tasks := net.tasks + [t]);
    assert forall i :: 0 <= i < |net.conns| ==> Exact(net', i) == Exact(net, i);
  }

  // ----- Steps of the server strand -----

  lemma OneMoreCall(issued: seq<Op>, executed: nat, c: Conn)
    requires c.joinedAt <= executed < |issued|
    ensures For(c.id, issued[c.joinedAt..executed + 1])
            == For(c.id, issued[c.joinedAt..executed]) + PayloadFor(c.id, issued[executed])
  {
    var slice := issued[c.joinedAt..executed + 1];
    assert slice[..|slice| - 1] == issued[c.joinedAt..executed];
  }

  lemma FedByPost(issued: seq<Op>, executed: nat, c: Conn, frame: Bytes)
    requires ConnOk(c) && LegalData(frame) && Fed(issued, executed, c, true) && executed < |issued|
    requires PayloadFor(c.id, issued[executed]) == [frame[HEADER_SIZE..]]
    ensures ConnOk(c.(posted := c.posted + [EnqueuePost(frame)]))
    ensures Fed(issued, executed + 1, c.(posted := c.posted + [EnqueuePost(frame)]), true)
  {
    PostOk(c, EnqueuePost(frame));
    OneMoreCall(issued, executed, c);
  }

  lemma FedWithoutPost(issued: seq<Op>, executed: nat, c: Conn, exact: bool, exact': bool)
    requires Fed(issued, executed, c, exact) && executed < |issued|
    requires exact' ==> exact && PayloadFor(c.id, issued[executed]) == []
    ensures Fed(issued, executed + 1, c, exact')
  {
    OneMoreCall(issued, executed, c);
    assert For(c.id, issued[c.joinedAt..executed]) + [] == For(c.id, issued[c.joinedAt..executed]);
  }

  lemma TaskTaken(net: Net)
    requires StrandOk(net) && net.tasks != []
    ensures net.issued[net.executed..] == CallOf(net.tasks[0]) + CallsIn(net.tasks[1..])
    ensures CallOf(net.tasks[0]) == [] ==> StrandOk(net.(tasks := net.tasks[1..]))
    ensures CallOf(net.tasks[0]) != [] ==>
              && net.executed < |net.issued| && CallOf(net.tasks[0]) == [net.issued[net.executed]]
              && StrandOk(net.(tasks := net.tasks[1..], executed := net.executed + 1))
  {
    assert TaskOk(net.tasks[0]);
    if CallOf(net.tasks[0]) != [] {
      assert net.issued[net.executed..][1..] == net.issued[net.executed + 1..];
    }
  }

  /** The strand after its first closure was a call: one call more is executed, the rest still waits. */
  lemma CallTaken(net: Net)
    requires NetOk(net) && net.tasks != [] && (net.tasks[0].SendTask? || net.tasks[0].BroadcastTask?)
    ensures var frame := net.tasks[0].frame;
            && LegalData(frame) && net.executed < |net.issued|
            && net.issued[net.executed]
               == (if net.tasks[0].SendTask? then SendOp(net.tasks[0].id, frame[HEADER_SIZE..])
                   else BroadcastOp(frame[HEADER_SIZE..]))
            && StrandOk(net.(tasks := net.tasks[1..], executed := net.executed + 1))
  {
    assert TaskOk(net.tasks[0]);
    TaskTaken(net);
  }

  lemma StrandOnly(net: Net, net': Net)
    requires StrandOk(net) && net'.tasks == net.tasks && net'.issued == net.issued && net'.executed == net.executed
    ensures StrandOk(net')
  {
  }

  lemma SendTaskOk(net: Net)
    requires NetOk(net) && net.tasks != [] && net.tasks[0].SendTask?
    ensures NetOk(StepTask(net))
  {
    hide ConnOk, HandedToSession, For, CallsIn, Legal, LegalData, Fed, StrandOk;
    var id, frame, net' := net.tasks[0].id, net.tasks[0].frame, StepTask(net);
    CallTaken(net);
    StrandOnly(net.(tasks := net.tasks[1..], executed := net.executed + 1), net');
    forall i | 0 <= i < |net'.conns|
      ensures ConnOk(net'.conns[i]) && Fed(net'.issued, net'.executed, net'.conns[i], Exact(net', i))
    {
      var c := net.conns[i];
      NetOkAt(net, i);
      if !net.inbox.stopping && id in net.table && net.table[id] == i {
        FedByPost(net.issued, net.executed, c, frame);
      } else {
        FedWithoutPost(net.issued, net.executed, c, Exact(net, i), Exact(net', i));
      }
    }
  }

  lemma BroadcastTaskOk(net: Net)
    requires NetOk(net) && net.tasks != [] && net.tasks[0].BroadcastTask?
    ensures NetOk(StepTask(net))
  {
    hide ConnOk, HandedToSession, For, CallsIn, Legal, LegalData, Fed, StrandOk;
    var frame, net' := net.tasks[0].frame, StepTask(net);
    CallTaken(net);
    StrandOnly(net.(tasks := net.tasks[1..], executed := net.executed + 1), net');
    forall i | 0 <= i < |net'.conns|
      ensures ConnOk(net'.conns[i]) && Fed(net'.issued, net'.executed, net'.conns[i], Exact(net', i))
    {
      var c := net.conns[i];
      NetOkAt(net, i);
      if Exact(net, i) {
        FedByPost(net.issued, net.executed, c, frame);
      } else {
        FedWithoutPost(net.issued, net.executed, c, Exact(net, i), Exact(net', i));
      }
    }
  }

  /** A closing request posted to some sessions changes nothing that was handed over. */
  lemma ClosePosted(net: Net, net': Net)
    requires NetOk(net) && StrandOk(net')
    requires net'.table == net.table && net'.inbox == net.inbox && net'.issued == net.issued
             && net'.executed == net.executed
    requires |net'.conns| == |net.conns|
    requires forall i :: 0 <= i < |net.conns| ==>
               net'.conns[i] == net.conns[i]
                   || net'.conns[i] == net.conns[i].(posted := net.conns[i].posted + [ClosePost])
    ensures NetOk(net')
  {
    forall i | 0 <= i < |net'.conns|
      ensures ConnOk(net'.conns[i]) && net'.conns[i].id == net.conns[i].id
      ensures Fed(net'.issued, net'.executed, net'.conns[i], Exact(net', i))
    {
      assert Fed(net.issued, net.executed, net.conns[i], Exact(net, i)) && ConnOk(net.conns[i]);
      PostOk(net.conns[i], ClosePost);
      assert HandedToSession(net.conns[i]) + [] == HandedToSession(net.conns[i]);
    }
  }

  lemma EraseTaskOk(net: Net)
    requires NetOk(net) && net.tasks != [] && net.tasks[0].EraseTask?
    ensures NetOk(StepTask(net))
  {
    var net' := StepTask(net);
    TaskTaken(net);
    forall i | 0 <= i < |net'.conns| ensures Fed(net'.issued, net'.executed, net'.conns[i], Exact(net', i)) {
      assert Fed(net.issued, net.executed, net.conns[i], Exact(net, i));
    }
  }

  lemma StepTaskOk(net: Net)
    requires NetOk(net) && net.tasks != []
    ensures NetOk(StepTask(net))
  {
    hide ConnOk, Fed;
    match net.tasks[0] {
      case SendTask(_, _) => SendTaskOk(net);
      case BroadcastTask(_) => BroadcastTaskOk(net);
      case EraseTask(_) => EraseTaskOk(net);
      case _ =>
        TaskTaken(net);
        ClosePosted(net, StepTask(net));
    }
  }

  lemma JoinedConnOk(c: Conn, now: nat, peer: Peer)
    requires c == Joined(c.id, c.serial, c.joinedAt, now, peer) && (peer.Library? ==> peer.activity <= peer.start)
    ensures ConnOk(c) && HandedToSession(c) == []
  {
  }

  lemma StepAcceptOk(net: Net, now: nat, room: bool, peer: Peer)
    requires NetOk(net) && (peer.Library? ==> peer.activity <= peer.start)
    ensures NetOk(StepAccept(net, now, room, peer))
  {
    hide ConnOk, HandedToSession, StartedAfter;
    var net' := StepAccept(net, now, room, peer);
    forall i | 0 <= i < |net'.conns|
      ensures ConnOk(net'.conns[i]) && Fed(net'.issued, net'.executed, net'.conns[i], Exact(net', i))
    {
      if i < |net.conns| {
        assert net'.conns[i] == net.conns[i];
        assert Fed(net.issued, net.executed, net.conns[i], Exact(net, i)) && ConnOk(net.conns[i]);
        assert Listed(net', i) ==> Listed(net, i);
      } else {
        JoinedConnOk(net'.conns[i], now, peer);
        assert net.issued[net.executed..net.executed] == [];
      }
    }
  }

  // ----- Steps of one connection -----

  /** One connection moves on, and nothing else the delivery depends on changes. */
  lemma ConnMoved(net: Net, net': Net, n: nat)
    requires NetOk(net) && n < |net.conns| && StrandOk(net')
    requires net'.table == net.table && net'.inbox.stopping == net.inbox.stopping
    requires net'.issued == net.issued && net'.executed == net.executed
    requires |net'.conns| == |net.conns| && forall i :: 0 <= i < |net.conns| && i != n ==> net'.conns[i] == net.conns[i]
    requires var c, c' := net.conns[n], net'.conns[n];
             && ConnOk(c') && c'.id == c.id && c'.joinedAt == c.joinedAt
             && HandedToSession(c') <= HandedToSession(c)
             && (!c'.server.closed ==> !c.server.closed && HandedToSession(c') == HandedToSession(c))
    ensures NetOk(net')
  {
    hide ConnOk, HandedToSession, For;
    forall i | 0 <= i < |net'.conns|
      ensures ConnOk(net'.conns[i]) && net'.conns[i].id == net.conns[i].id
      ensures Fed(net'.issued, net'.executed, net'.conns[i], Exact(net', i))
    {
      assert Fed(net.issued, net.executed, net.conns[i], Exact(net, i)) && ConnOk(net.conns[i]);
    }
  }

  lemma EraseRequested(net: Net, id: u32)
    requires StrandOk(net)
    ensures StrandOk(net.(tasks := net.tasks + [EraseTask(id)]))
  {
    CallsInSnoc(net.tasks, EraseTask(id));
    assert CallsIn(net.tasks) + [] == CallsIn(net.tasks);
  }

  lemma StoppingUnchanged(b: Inbox, ps: seq<Packet>, room: bool)
    requires |ps| <= 1
    ensures PushAll(b, ps, room).stopping == b.stopping
  {
  }

  lemma SessionMoved(net: Net, c: Conn, n: nat, a: Action, now: nat, room: bool)
    requires NetOk(net) && n < |net.conns| && EndpointOk(c.server) && Enabled(c.server, a, now)
    requires c == net.conns[n].(posted := c.posted)
    requires var c' := c.(server := Apply(c.server, a, now, false));
             && ConnOk(c')
             && HandedToSession(c') <= HandedToSession(net.conns[n])
             && (!c'.server.closed ==> HandedToSession(c') == HandedToSession(net.conns[n]))
    ensures NetOk(StepSession(net.(conns := net.conns[n := c]), n, a, now, room))
  {
    hide ConnOk, EndpointOk, HandedToSession, For, Apply, Enabled, CallsIn, Push, CallbackPackets;
    EndpointKept(c.server, a, now, false);
    EraseRequested(net, c.id);
    StoppingUnchanged(net.inbox, CallbackPackets(c.id, c.server, a, now), room);
    var net' := StepSession(net.(conns := net.conns[n := c]), n, a, now, room);
    assert StrandOk(net');
    ConnMoved(net, net', n);
  }

  lemma SessionMoveOk(net: Net, m: Move)
    requires NetOk(net) && Allowed(net, m) && (m.SessionPost? || m.SessionIo?)
    ensures NetOk(Next(net, m))
  {
    hide NetOk, HandedToSession, Apply;
    var c := net.conns[m.n];
    NetOkAt(net, m.n);
    if m.SessionPost? {
      SessionPostOk(c, m.now);
      SessionMoved(net, c.(posted := c.posted[1..]), m.n, PostAction(c.posted[0]), m.now, m.room);
    } else {
      SessionIoOk(c, m.action, m.now);
      assert net.conns[m.n := c] == net.conns;
      SessionMoved(net, c, m.n, m.action, m.now, m.room);
    }
  }

  lemma ClientMoved(net: Net, n: nat, client: Client)
    requires NetOk(net) && n < |net.conns| && ConnOk(net.conns[n].(client := client))
    ensures NetOk(WithClient(net, n, client))
  {
    hide ConnOk, For, Handed;
    ConnMoved(net, WithClient(net, n, client), n);
  }

  lemma ClientMoveOk(net: Net, m: Move)
    requires NetOk(net) && Allowed(net, m)
    requires m.ClientSend? || m.ClientPost? || m.ClientIo? || m.ClientPoll? || m.ClientShutdown? || m.ClientForceClose?
    ensures NetOk(Next(net, m))
  {
    hide NetOk, ConnOk, StepClient, SendFromClient, PollClient, Enabled, Exact;
    var c := net.conns[m.n];
    NetOkAt(net, m.n);
    match m {
      case ClientSend(n, payload) =>
        ClientCallsKeepConn(c, payload);
        ClientMoved(net, n, SendFromClient(c.client, payload));
      case ClientPost(n, now) =>
        ClientPostKeepsConn(c, now);
        ClientMoved(net, n, StepClient(c.client.(posted := c.client.posted[1..]), PushFrame(c.client.posted[0]), now,
            true));
      case ClientIo(n, a, now, room) =>
        ClientIoOk(c, a, now, room);
        ClientMoved(net, n, StepClient(c.client, a, now, room));
      case ClientPoll(n) =>
        ClientCallsKeepConn(c, []);
        ClientMoved(net, n, PollClient(c.client));
      case ClientShutdown(n) =>
        ClientCallsKeepConn(c, []);
        ClientMoved(net, n, c.client.(stopping := true));
      case ClientForceClose(n, now) =>
        ClientIoOk(c, ForceCloseNow, now, true);
        ClientMoved(net, n, StepClient(c.client, ForceCloseNow, now, true));
    }
  }

  lemma GameMoveOk(net: Net, m: Move)
    requires NetOk(net) && (m.GameSend? || m.GameBroadcast? || m.GameDisconnect? || m.GamePoll? || m.GameShutdown?)
    ensures NetOk(Next(net, m))
  {
    match m {
      case GameSend(id, payload) =>
        if SendablePayload(payload) {
          DataFrameLegal(payload);
          CallIssued(net, SendOp(id, payload), SendTask(id, DataFrame(payload)));
        }
      case GameBroadcast(payload) =>
        if SendablePayload(payload) {
          DataFrameLegal(payload);
          CallIssued(net, BroadcastOp(payload), BroadcastTask(DataFrame(payload)));
        }
      case GameDisconnect(id) => TaskPosted(net, DisconnectTask(id));
      case GamePoll =>
        var net' := Next(net, m);
        assert forall i :: 0 <= i < |net.conns| ==> Exact(net', i) == Exact(net, i);
      case GameShutdown =>
        TaskPosted(net, CloseAllTask);
        var posted, net' := net.(tasks := net.tasks + [CloseAllTask]), Next(net, m);
        forall i | 0 <= i < |net'.conns| ensures Fed(net'.issued, net'.executed, net'.conns[i], Exact(net', i)) {
          assert Fed(net.issued, net.executed, net.conns[i], Exact(net, i));
        }
    }
  }

  lemma NetOkKept(net: Net, m: Move)
    requires NetOk(net) && Allowed(net, m)
    ensures NetOk(Next(net, m))
  {
    match m {
      case Accept(now, room, late, peer) =>
        GameMoveOk(net, GameShutdown);
        StepAcceptOk(if late then ShutDown(net) else net, now, room, peer);
      case RunTask => StepTaskOk(net);
      case SessionPost(_, _, _) => SessionMoveOk(net, m);
      case SessionIo(_, _, _, _) => SessionMoveOk(net, m);
      case GameSend(_, _) => GameMoveOk(net, m);
      case GameBroadcast(_) => GameMoveOk(net, m);
      case GameDisconnect(_) => GameMoveOk(net, m);
      case GamePoll => GameMoveOk(net, m);
      case GameShutdown => GameMoveOk(net, m);
      case _ => ClientMoveOk(net, m);
    }
  }

  lemma {:induction false} NetOkAlways(moves: seq<Move>)
    ensures NetOk(After(moves))
  {
    if moves != [] {
      var before := After(moves[..|moves| - 1]);
      NetOkAlways(moves[..|moves| - 1]);
      if Allowed(before, moves[|moves| - 1]) {
        NetOkKept(before, moves[|moves| - 1]);
      }
    }
  }

  /**
   * End-to-end FIFO, server to client, in every run: the payloads a client has polled are an in-order,
   * byte-identical, duplicate-free selection from the payloads of the calls issued for its session since it joined; and
   * a prefix of them as long as its receive queue dropped nothing.
   */
  lemma ClientsReceiveInOrder(moves: seq<Move>, n: nat)
    requires n < |After(moves).conns|
    ensures var net := After(moves);
            var c := net.conns[n];
            && c.joinedAt <= |net.issued|
            && Subsequence(c.client.polled, For(c.id, net.issued[c.joinedAt..]))
            && (c.client.dropped == 0 ==> c.client.polled <= For(c.id, net.issued[c.joinedAt..]))
  {
    hide After, ConnOk, HandedToSession;
    NetOkAlways(moves);
    var net := After(moves);
    var c := net.conns[n];
    NetOkAt(net, n);
    BothDirections(c);
    ForRest(c.id, net.issued, c.joinedAt, net.executed);
    SubsequenceOfExtension(c.client.polled, HandedToSession(c), For(c.id, net.issued[c.joinedAt..]));
  }

  /** Every payload a client has read completely was polled, waits in its receive queue, or was dropped and counted. */
  lemma ClientDropsAreCounted(moves: seq<Move>, n: nat)
    requires n < |After(moves).conns|
    ensures var c := After(moves).conns[n].client;
            |DataOf(c.ep.inlet.heard)| == |c.polled| + |c.received| + c.dropped
                && |c.received| <= RECEIVE_QUEUE_CAPACITY
  {
    hide After;
    NetOkAlways(moves);
    NetOkAt(After(moves), n);
  }

  lemma ForRest(id: u32, ops: seq<Op>, from: nat, to: nat)
    requires from <= to <= |ops|
    ensures For(id, ops[from..to]) <= For(id, ops[from..])
  {
    assert ops[from..] == ops[from..to] + ops[to..];
    ForConcat(id, ops[from..to], ops[to..]);
  }

  /** Every stage between the game thread and the client's poll is empty, and nothing was dropped at the end. */
  predicate Quiet(net: Net, n: nat)
    requires n < |net.conns|
  {
    var c := net.conns[n];
    && net.tasks == [] && c.posted == [] && c.server.out.queue == []
    && c.client.ep.inlet.incoming == c.server.out.sent
    && c.client.ep.inlet.op.Read? && c.client.ep.inlet.op.want.Head? && c.client.ep.inlet.op.got == []
    && c.client.received == [] && c.client.dropped == 0
  }

  lemma HeardAll(i: Inlet, o: Outbox)
    requires Reader(i) && Pump(o, false) && o.queue == [] && i.incoming == o.sent
    requires i.op.Read? && i.op.want.Head? && i.op.got == []
    ensures i.heard == o.Accepted()
  {
    assert o.popped + [] == o.popped && Flatten(i.heard) + [] == Flatten(i.heard);
    Stream.FlattenReflectsPrefix(i.heard, o.popped);
    Stream.FlattenReflectsPrefix(o.popped, i.heard);
  }

  lemma QuietConn(c: Conn)
    requires ConnOk(c) && !c.server.closed && c.posted == [] && c.server.out.queue == []
    requires c.client.ep.inlet.incoming == c.server.out.sent
    requires c.client.ep.inlet.op.Read? && c.client.ep.inlet.op.want.Head? && c.client.ep.inlet.op.got == []
    requires c.client.received == [] && c.client.dropped == 0
    ensures c.client.polled == HandedToSession(c)
  {
    HeardAll(c.client.ep.inlet, c.server.out);
    assert c.client.polled + [] == c.client.polled;
    assert DataOf(c.server.out.Accepted()) + [] == DataOf(c.server.out.Accepted());
  }

  lemma EmptyStrandExecutedAll(net: Net)
    requires StrandOk(net) && net.tasks == []
    ensures net.executed == |net.issued|
  {
    assert |net.issued[net.executed..]| == 0;
  }

  /**
   * Nothing is lost on the way: once every stage is empty, an open session's client has polled all that was sent to it.
   */
  lemma QuietMeansDelivered(moves: seq<Move>, n: nat)
    requires n < |After(moves).conns|
    requires var net := After(moves); Exact(net, n) && !net.conns[n].server.closed && Quiet(net, n)
    ensures var net := After(moves);
            var c := net.conns[n];
            c.joinedAt <= |net.issued| && c.client.polled == For(c.id, net.issued[c.joinedAt..])
  {
    hide After, ConnOk, HandedToSession, For, StrandOk;
    NetOkAlways(moves);
    var net := After(moves);
    var c := net.conns[n];
    NetOkAt(net, n);
    QuietConn(c);
    EmptyStrandExecutedAll(net);
    assert net.issued[c.joinedAt..net.executed] == net.issued[c.joinedAt..];
  }

  predicate HeaderAccepted(i: Inlet) {
    CanFinishRead(i, Head, true) ==> |i.op.got| == HEADER_SIZE && DecodeHeader(i.op.got).Ok?
  }

  /** Between two ends of this library no header is ever refused; and no client ever refuses a server's header. */
  lemma NoHeaderIsRefused(moves: seq<Move>, n: nat)
    requires n < |After(moves).conns|
    ensures var c := After(moves).conns[n];
            && HeaderAccepted(c.client.ep.inlet) && (!c.foreign ==> HeaderAccepted(c.server.inlet))
  {
    hide After;
    NetOkAlways(moves);
    var c := After(moves).conns[n];
    NetOkAt(After(moves), n);
    if CanFinishRead(c.client.ep.inlet, Head, true) {
      HonestHeadersAreAccepted(c.client.ep.inlet, c.server.out, c.server.closed);
    }
    if !c.foreign && CanFinishRead(c.server.inlet, Head, true) {
      HonestHeadersAreAccepted(c.server.inlet, c.client.ep.out, c.client.ep.closed);
    }
  }
}
