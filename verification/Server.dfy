/**
 * The server object: session table, accept loop, strand closures and the game thread's calls. Every method moves the
 * object as the transition system of module Network moves, so what holds of all its runs holds of the object.
 */
module Servers {
  import opened Bytes
  import opened Codec
  import opened Endpoint
  import opened PacketQueue
  import opened Network
  import opened Frames
  import opened ServerCores
  import opened Sessions

  /** The counter is a 32-bit unsigned integer. */
  function Following(id: u32): u32 {
    (id + 1) % 0x1_0000_0000
  }

  ghost predicate Alike(s: Session, c: Conn)
    reads s
  {
    s.id == c.id && s.posted == c.posted && s.View() == c.server
  }

  lemma AlikeOf(s: Session, c: Conn)
    requires s.id == c.id && s.posted == c.posted && s.View() == c.server
    ensures Alike(s, c)
  {
  }

  lemma JoinedShape(id: u32, serial: nat, joinedAt: nat, now: nat, peer: Peer)
    ensures var c := Joined(id, serial, joinedAt, now, peer); c.id == id && c.posted == [] && c.server == Started(now)
  {
  }

  class Server {
    const core: ServerCore
    var nextId: u32
    var sessions: map<u32, Session>

    // every session ever started, and what the game thread asked for
    ghost var conns: seq<Session>
    ghost var accepts: nat
    ghost var issued: seq<Op>
    ghost var executed: nat

    /** The object is in state `net`, the clients' halves aside. */
    ghost predicate Refines(net: Net)
      reads this, core, conns
    {
      && Wired()
      && nextId == net.nextId && core.tasks == net.tasks && core.View() == net.inbox
      && accepts == net.accepts && issued == net.issued && executed == net.executed
      && |conns| == |net.conns| && (forall i :: 0 <= i < |conns| ==> Alike(conns[i], net.conns[i]))
      && SameTable(net.table)
    }

    ghost predicate Wired()
      reads this`conns
    {
      && (forall i :: 0 <= i < |conns| ==> conns[i].core == core)
      && (forall i, j :: 0 <= i < j < |conns| ==> conns[i] != conns[j])
    }

    ghost predicate SameTable(table: map<u32, nat>)
      reads this`sessions, this`conns
    {
      && sessions.Keys == table.Keys
      && (forall id :: id in sessions ==>
            table[id] < |conns| && sessions[id] == conns[table[id]] && sessions[id].id == id)
    }

    constructor ()
      ensures Refines(InitialNet) && fresh(core)
    {
      core := new ServerCore();
      nextId, sessions := 1, map[];
      conns, accepts, issued, executed := [], 0, [], 0;
    }

    // ----- The game thread -----

    method Send(id: u32, payload: Bytes, ghost net: Net)
      requires Refines(net)
      modifies this`issued, core
      ensures Refines(Next(net, GameSend(id, payload)))
    {
      if payload == [] || |payload| > MAX_PAYLOAD_SIZE {
        return;
      }
      if core.shuttingDown {
        return;
      }
      BuilderIsFaithfulExactlyInBounds(payload);
      core.Post(SendTask(id, EncodeDataFrame(payload)));
      issued := issued + [SendOp(id, payload)];
    }

    method Broadcast(payload: Bytes, ghost net: Net)
      requires Refines(net)
      modifies this`issued, core
      ensures Refines(Next(net, GameBroadcast(payload)))
    {
      if payload == [] || |payload| > MAX_PAYLOAD_SIZE {
        return;
      }
      if core.shuttingDown {
        return;
      }
      BuilderIsFaithfulExactlyInBounds(payload);
      core.Post(BroadcastTask(EncodeDataFrame(payload)));
      issued := issued + [BroadcastOp(payload)];
    }

    method Disconnect(id: u32, ghost net: Net)
      requires Refines(net)
      modifies core
      ensures Refines(Next(net, GameDisconnect(id)))
    {
      if core.shuttingDown {
        return;
      }
      core.Post(DisconnectTask(id));
    }

    method PollPacket(ghost net: Net) returns (p: Option<Packet>)
      requires Refines(net)
      modifies core
      ensures Refines(Next(net, GamePoll))
      ensures p == if net.inbox.queue == [] then None else Some(net.inbox.queue[0])
    {
      p := core.PollPacket();
    }

    method Shutdown(ghost net: Net)
      requires Refines(net)
      modifies core
      ensures Refines(Next(net, GameShutdown))
    {
      var was := core.shuttingDown;
      core.shuttingDown := true;
      if was {
        return;
      }
      core.Post(CloseAllTask);
    }

    // ----- The server strand -----

    /**
     * The accept handler, for a connection accepted without an error. `late`: another thread calls shutdown() between
     * the handler's test of the flag and the one in push_packet.
     */
    method DoAccept(now: nat, room: bool, late: bool, ghost peer: Peer, ghost net: Net)
      requires Refines(net) && (peer.Library? ==> peer.activity <= peer.start)
      modifies this, core
      ensures Refines(if net.inbox.stopping then net else Next(net, Accept(now, room, late, peer)))
    {
      hide Session.View, Alike, Wired, SameTable, Push, Joined;
      if core.shuttingDown {
        return;
      }
      ghost var open := net;
      if late {
        Shutdown(net);
        open := ShutDown(net);
      }
      var id := nextId;
      nextId := Following(id);
      accepts := accepts + 1;
      var pushed := core.PushPacket(Connect(id), room);
      if pushed {
        var session := new Session(id, core, now);
        ghost var joined := Joined(id, open.accepts, open.executed, now, peer);
        JoinedShape(id, open.accepts, open.executed, now, peer);
        AlikeOf(session, joined);
        Enter(session, open.(nextId := nextId, accepts := accepts, inbox := core.View()), joined);
      }
    }

    /** An id that is still in the map keeps its old session. */
    method Enter(session: Session, ghost net: Net, ghost joined: Conn)
      requires Refines(net) && session !in conns && session.core == core && Alike(session, joined)
      modifies this`sessions, this`conns
      ensures Refines(net.(conns := net.conns + [joined],
                           table := if joined.id in net.table then net.table else net.table[joined.id := |net.conns|]))
    {
      hide Session.View, ServerCore.View;
      if session.id !in sessions {
        sessions := sessions[session.id := session];
      }
      conns := conns + [session];
    }

    /** Runs the oldest closure posted to the server strand. */
    method RunTask(ghost net: Net)
      requires Refines(net) && core.tasks != []
      modifies this`sessions, this`executed, core`tasks, set i | 0 <= i < |conns| :: conns[i]`posted
      ensures Refines(Next(net, Move.RunTask))
    {
      hide Session.View, Alike, Wired, SameTable, PostToAll, PostTo;
      var task := core.tasks[0];
      core.tasks := core.tasks[1..];
      ghost var rest := net.(tasks := net.tasks[1..]);
      match task {
        case SendTask(id, frame) =>
          executed := executed + 1;
          if core.shuttingDown {
            return;
          }
          PostToOne(id, EnqueuePost(frame), rest.(executed := rest.executed + 1));
        case BroadcastTask(frame) =>
          executed := executed + 1;
          if core.shuttingDown {
            return;
          }
          PostToAllOf(EnqueuePost(frame), rest.(executed := rest.executed + 1));
        case DisconnectTask(id) =>
          if core.shuttingDown {
            return;
          }
          PostToOne(id, ClosePost, rest);
        case EraseTask(id) =>
          Erase(id, net.table);
        case CloseAllTask =>
          PostToAllOf(ClosePost, rest);
      }
    }

    method Erase(id: u32, ghost table: map<u32, nat>)
      requires SameTable(table)
      modifies this`sessions
      ensures SameTable(table - {id})
    {
      sessions := sessions - {id};
    }

    /** Looks the session up and posts a closure to its strand, if it is there. */
    method PostToOne(id: u32, post: Post, ghost net: Net)
      requires Refines(net)
      modifies set i | 0 <= i < |conns| :: conns[i]`posted
      ensures Refines(PostTo(net, id, post))
    {
      hide Session.View, ServerCore.View;
      if id !in sessions {
        return;
      }
      match post {
        case EnqueuePost(frame) => sessions[id].EnqueueRawFrame(frame);
        case ClosePost => sessions[id].CloseLater();
      }
    }

    /** Is it in the session map? */
    predicate Mapped(session: Session)
      reads this`sessions
    {
      session.id in sessions && sessions[session.id] == session
    }

    /** The loops over the session map, in any order. */
    method PostToEverySession(post: Post)
      requires forall id :: id in sessions ==> sessions[id].id == id && sessions[id] in conns
      modifies set i | 0 <= i < |conns| :: conns[i]`posted
      ensures forall s :: s in conns ==> s.posted == old(s.posted) + if Mapped(s) then [post] else []
    {
      var todo := sessions.Keys;
      while todo != {}
        invariant todo <= sessions.Keys
        invariant forall s :: s in conns ==>
                    s.posted == old(s.posted) + if Mapped(s) && s.id !in todo then [post] else []
        decreases |todo|
      {
        var id :| id in todo;
        todo := todo - {id};
        sessions[id].posted := sessions[id].posted + [post];
      }
    }

    /** The pure table lists a connection exactly when the map holds its object. */
    lemma ListedIsMapped(net: Net)
      requires Refines(net)
      ensures forall i :: 0 <= i < |conns| ==> (Listed(net, i) <==> Mapped(conns[i]))
      ensures forall id :: id in sessions ==> sessions[id].id == id && sessions[id] in conns
    {
      hide Session.View, ServerCore.View;
    }

    method PostToAllOf(post: Post, ghost net: Net)
      requires Refines(net)
      modifies set i | 0 <= i < |conns| :: conns[i]`posted
      ensures Refines(net.(conns := PostToAll(net, post)))
    {
      hide Session.View, ServerCore.View, Wired, SameTable, Listed, Mapped;
      ListedIsMapped(net);
      PostToEverySession(post);
    }

    /**
     * What the other threads do while the game thread is between two calls. Callers know no more of it than the
     * contract: any moves of the I/O threads and the clients, in any order. Here it is the server strand that goes on.
     */
    method OtherThreads(steps: nat, ghost moves: seq<Move>) returns (ghost moves': seq<Move>)
      requires Refines(After(moves))
      modifies this, core, conns
      ensures Refines(After(moves')) && moves <= moves'
      ensures forall k :: |moves| <= k < |moves'| ==> OfOthers(moves'[k])
      ensures old(conns) <= conns && forall i :: 0 <= i < |conns| ==> conns[i] in old(conns) || fresh(conns[i])
    {
      hide After, Refines, Next;
      moves' := moves;
      var n := 0;
      while n < steps
        invariant n <= steps
        invariant Refines(After(moves')) && moves <= moves' && conns == old(conns)
        invariant forall k :: |moves| <= k < |moves'| ==> OfOthers(moves'[k])
      {
        if core.tasks != [] {
          TasksAreAllowed(After(moves'));
          RunTask(After(moves'));
          OneMoveMore(moves', Move.RunTask);
          moves' := moves' + [Move.RunTask];
        }
        n := n + 1;
      }
    }

    lemma TasksAreAllowed(net: Net)
      requires Refines(net) && core.tasks != []
      ensures Allowed(net, Move.RunTask)
    {
    }

    // ----- The session strands -----

    /** Runs the oldest closure posted to a session's strand. */
    method RunSessionPost(session: Session, now: nat, room: bool, ghost n: nat, ghost net: Net)
      requires Refines(net) && Allowed(net, SessionPost(n, now, room)) && session == conns[n]
      modifies core, session
      ensures Refines(Next(net, SessionPost(n, now, room)))
    {
      hide SameTable, Push, PushAll, CallbackPackets, Apply;
      var post := session.posted[0];
      session.posted := session.posted[1..];
      session.Step(match post case EnqueuePost(frame) => PushFrame(frame) case ClosePost => CloseNow, now, room);
    }

    /** Runs a completion handler of a session, or a move of the kernel. */
    method RunSessionIo(session: Session, a: Action, now: nat, room: bool, ghost n: nat, ghost net: Net)
      requires Refines(net) && Allowed(net, SessionIo(n, a, now, room)) && session == conns[n]
      modifies core, session
      ensures Refines(Next(net, SessionIo(n, a, now, room)))
    {
      hide SameTable, Push, PushAll, CallbackPackets, Apply;
      session.Step(a, now, room);
    }

    /** The clients' moves leave the server's half alone. */
    lemma ClientMovesKeepServer(net: Net, m: Move)
      requires Refines(net) && Allowed(net, m)
      requires m.ClientSend? || m.ClientPost? || m.ClientIo? || m.ClientPoll? || m.ClientShutdown?
               || m.ClientForceClose?
      ensures Refines(Next(net, m))
    {
      hide Session.View, Wired, SameTable, Enabled, Apply, StepClient;
    }
  }
}
