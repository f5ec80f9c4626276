/** What each move posts where, who is listed, and why every disconnect and every shutdown closes its sessions. */
module Strand {
  import opened Bytes
  import opened Codec
  import opened Endpoint
  import opened PacketQueue
  import opened Network
  import opened Delivery
  import opened FrameAccounts
  import opened Lifecycle
  import opened LatePackets

  // ----- Closures posted to the server strand -----

  /** The closures a move posts: one for each accepted call of the game thread, one for each session that closes. */
  ghost function PostedTasks(net: Net, m: Move): seq<Task>
    requires Allowed(net, m)
  {
    var running := !net.inbox.stopping;
    match m
    case GameSend(id, payload) =>
      if running && 1 <= |payload| <= 2048 then [SendTask(id, HeaderBytes(0, |payload|) + payload)] else []
    case GameBroadcast(payload) =>
      if running && 1 <= |payload| <= 2048 then [BroadcastTask(HeaderBytes(0, |payload|) + payload)] else []
    case GameDisconnect(id) => if running then [DisconnectTask(id)] else []
    case GameShutdown => if running then [CloseAllTask] else []
    case Accept(_, _, late, _) => if late then [CloseAllTask] else []
    case SessionPost(n, now, _) =>
      var e := net.conns[n].server;
      if !e.closed && Apply(e, PostAction(net.conns[n].posted[0]), now, false).closed then [EraseTask(net.conns[n].id)]
          else []
    case SessionIo(n, a, now, _) =>
      var e := net.conns[n].server;
      if !e.closed && Apply(e, a, now, false).closed then [EraseTask(net.conns[n].id)] else []
    case _ => []
  }

  /** Closures are run in the order in which they were posted. */
  lemma TasksExactly(net: Net, m: Move)
    requires Allowed(net, m)
    ensures Next(net, m).tasks == (if m.RunTask? then net.tasks[1..] else net.tasks) + PostedTasks(net, m)
    ensures Next(net, m).inbox.stopping <==> net.inbox.stopping || m.GameShutdown? || (m.Accept? && m.late)
  {
    hide Apply, Enabled, CallbackPackets, HeaderBytes;
  }

  // ----- Closures posted to the sessions' strands -----

  /**
   * What running a closure of the server strand posts to a listed session: the frame of a send to it or of a broadcast
   * and a requested close while the server runs, and the close that a shutdown asks of all.
   */
  function PostedBy(t: Task, id: u32, running: bool): seq<Post> {
    match t
    case SendTask(to, frame) => if running && to == id then [EnqueuePost(frame)] else []
    case BroadcastTask(frame) => if running then [EnqueuePost(frame)] else []
    case DisconnectTask(to) => if running && to == id then [ClosePost] else []
    case EraseTask(_) => []
    case CloseAllTask => [ClosePost]
  }

  lemma TaskPostsExactly(net: Net, n: nat)
    requires net.tasks != [] && n < |net.conns| && TableOk(net)
    ensures n < |StepTask(net).conns|
    ensures StepTask(net).conns[n]
            == net.conns[n].(posted := net.conns[n].posted + if Listed(net, n) then
                               PostedBy(net.tasks[0], net.conns[n].id, !net.inbox.stopping) else [])
  {
    assert net.conns[n].posted + [] == net.conns[n].posted;
  }

  lemma SessionPostsNothing(net: Net, m: Move, n: nat)
    requires Allowed(net, m) && n < |net.conns| && (m.SessionPost? || m.SessionIo?)
    ensures n < |Next(net, m).conns| && Next(net, m).conns[n].id == net.conns[n].id
    ensures Next(net, m).conns[n].posted
            == if m.SessionPost? && m.n == n then net.conns[n].posted[1..] else net.conns[n].posted
  {
    hide Apply, Enabled, PushAll, CallbackPackets;
  }

  /** Each session's closures wait in the order in which they were posted; nobody but the server strand posts any. */
  lemma PostsExactly(net: Net, m: Move, n: nat)
    requires Allowed(net, m) && n < |net.conns| && TableOk(net)
    ensures n < |Next(net, m).conns|
    ensures Next(net, m).conns[n].posted
            == (if m.SessionPost? && m.n == n then net.conns[n].posted[1..] else net.conns[n].posted)
               + (if m.RunTask? && Listed(net, n) then PostedBy(net.tasks[0], net.conns[n].id, !net.inbox.stopping)
                   else [])
  {
    hide Apply, Enabled, StepTask, StepSession, StepAccept, StepClient, PostedBy, Listed, TableOk;
    assert forall posts: seq<Post> :: posts + [] == posts;
    match m {
      case RunTask => TaskPostsExactly(net, n);
      case SessionPost(_, _, _) => SessionPostsNothing(net, m, n);
      case SessionIo(_, _, _, _) => SessionPostsNothing(net, m, n);
      case _ => OtherAccounts(net, m, n);
    }
  }

  // ----- Who is listed -----

  /** What a move does to the session table. */
  lemma TableExactly(net: Net, m: Move)
    requires Allowed(net, m)
    ensures var net' := Next(net, m);
            && (m.RunTask? && net.tasks[0].EraseTask? ==> net'.table == net.table - {net.tasks[0].id})
            && (m.Accept? ==> net'.table == net.table
                              || (net'.table == net.table[net.nextId := |net.conns|] && net.nextId !in net.table))
            && (m.Accept? && |net'.conns| > |net.conns| ==> net.nextId in net'.table)
            && (!m.Accept? && !(m.RunTask? && net.tasks[0].EraseTask?) ==> net'.table == net.table)
  {
    hide Apply, Enabled, PushAll, CallbackPackets, StepClient, PostToAll;
  }

  /** What a move does to the sessions' closed flags. */
  lemma ClosedExactly(net: Net, m: Move, i: nat)
    requires Allowed(net, m) && i < |Next(net, m).conns|
    ensures var c' := Next(net, m).conns[i];
            if i < |net.conns| then
              && c'.id == net.conns[i].id
              && (c'.server.closed <==> net.conns[i].server.closed
                                        || (StepOf(m, i) && PostedTasks(net, m) == [EraseTask(c'.id)]))
            else m.Accept? && c'.id == net.nextId && !c'.server.closed && i == |net.conns|
  {
    hide Apply, Enabled, PushAll, CallbackPackets, StepClient, Succeeds, Push;
    if i < |net.conns| && StepOf(m, i) {
      var e, a := net.conns[i].server, if m.SessionPost? then PostAction(net.conns[i].posted[0]) else m.action;
      ClosedStays(e, a, m.now);
    }
  }

  lemma ClosedStays(e: Endpoint, a: Action, now: nat)
    requires Enabled(e, a, now)
    ensures e.closed ==> Apply(e, a, now, false).closed
  {
  }

  /** Open sessions are listed; a closed one that still is has its erasure waiting, and only closed ones have. */
  ghost predicate ListingOk(net: Net) {
    && (forall i :: 0 <= i < |net.conns| && !net.conns[i].server.closed ==> Listed(net, i))
    && (forall i :: 0 <= i < |net.conns| && net.conns[i].server.closed && Listed(net, i)
          ==> EraseTask(net.conns[i].id) in net.tasks)
    && (forall t :: t in net.tasks && t.EraseTask? ==> ErasesClosed(net, t.id))
  }

  ghost predicate ErasesClosed(net: Net, id: u32) {
    exists i :: 0 <= i < |net.conns| && net.conns[i].id == id && net.conns[i].server.closed
  }

  lemma ErasesClosedKept(net: Net, m: Move, id: u32)
    requires Allowed(net, m) && ErasesClosed(net, id)
    ensures ErasesClosed(Next(net, m), id)
  {
    hide Next, PostedTasks;
    NextKeepsConns(net, m);
    var i :| 0 <= i < |net.conns| && net.conns[i].id == id && net.conns[i].server.closed;
    ClosedExactly(net, m, i);
  }

  /** An erasure that waits afterwards is of a closed session. */
  lemma ErasuresKept(net: Net, m: Move, t: Task)
    requires ListingOk(net) && Allowed(net, m) && t in Next(net, m).tasks && t.EraseTask?
    ensures ErasesClosed(Next(net, m), t.id)
  {
    hide Next, Listed;
    TasksExactly(net, m);
    if t in net.tasks {
      ErasesClosedKept(net, m, t.id);
    } else {
      assert t in PostedTasks(net, m);
      assert StepOf(m, m.n) && t.id == net.conns[m.n].id;
      NextKeepsConns(net, m);
      ClosedExactly(net, m, m.n);
    }
  }

  /** A session open afterwards is listed. */
  lemma OpenIsListed(net: Net, m: Move, i: nat)
    requires ListingOk(net) && TableOk(net) && IdsOk(net) && Allowed(net, m) && Next(net, m).accepts <= ID_COUNT
    requires i < |Next(net, m).conns| && !Next(net, m).conns[i].server.closed
    ensures Listed(Next(net, m), i)
  {
    hide Next, PostedTasks, IdsOk;
    ClosedExactly(net, m, i);
    TableExactly(net, m);
    if i < |net.conns| {
      if m.RunTask? && net.tasks[0].EraseTask? && net.tasks[0].id == net.conns[i].id {
        AcceptsGrow(net, m);
        OnlyClosedErased(net, net.tasks[0], i);
      }
      if m.Accept? {
        FreshWhenAccepting(net, m);
      }
    } else {
      FreshWhenAccepting(net, m);
    }
  }

  lemma OnlyClosedErased(net: Net, t: Task, i: nat)
    requires ListingOk(net) && IdsOk(net) && net.accepts <= ID_COUNT
    requires t in net.tasks && t.EraseTask? && i < |net.conns| && net.conns[i].id == t.id
    ensures net.conns[i].server.closed
  {
    hide IdsOk;
    var j :| 0 <= j < |net.conns| && net.conns[j].id == t.id && net.conns[j].server.closed;
    if i != j {
      DistinctIds(net, i, j);
    }
  }

  /** The id of a new session is not in the table. */
  lemma FreshWhenAccepting(net: Net, m: Move)
    requires TableOk(net) && IdsOk(net) && Allowed(net, m) && m.Accept? && Next(net, m).accepts <= ID_COUNT
    ensures net.nextId !in net.table && forall i :: 0 <= i < |net.conns| ==> net.conns[i].id != net.nextId
  {
    hide Succeeds, Push, Joined, IdsOk;
    NextIdIsFresh(net);
  }

  /** A closed session listed afterwards has its erasure waiting. */
  lemma ClosedIsErasable(net: Net, m: Move, i: nat)
    requires ListingOk(net) && TableOk(net) && IdsOk(net) && Allowed(net, m) && Next(net, m).accepts <= ID_COUNT
    requires i < |Next(net, m).conns| && Next(net, m).conns[i].server.closed && Listed(Next(net, m), i)
    ensures EraseTask(Next(net, m).conns[i].id) in Next(net, m).tasks
  {
    hide Next, PostedTasks, IdsOk;
    ClosedExactly(net, m, i);
    TableExactly(net, m);
    TasksExactly(net, m);
    if m.Accept? {
      FreshWhenAccepting(net, m);
    }
    var id := net.conns[i].id;
    if net.conns[i].server.closed {
      assert Listed(net, i);
      assert m.RunTask? ==> net.tasks == [net.tasks[0]] + net.tasks[1..];
    }
  }

  lemma ListingKept(net: Net, m: Move)
    requires ListingOk(net) && TableOk(net) && IdsOk(net) && Allowed(net, m) && Next(net, m).accepts <= ID_COUNT
    ensures ListingOk(Next(net, m))
  {
    hide Next, Listed, IdsOk, TableOk;
    var net' := Next(net, m);
    forall i | 0 <= i < |net'.conns| ensures !net'.conns[i].server.closed ==> Listed(net', i)
      ensures net'.conns[i].server.closed && Listed(net', i) ==> EraseTask(net'.conns[i].id) in net'.tasks
    {
      if !net'.conns[i].server.closed {
        OpenIsListed(net, m, i);
      } else if Listed(net', i) {
        ClosedIsErasable(net, m, i);
      }
    }
    forall t | t in net'.tasks && t.EraseTask? ensures ErasesClosed(net', t.id) {
      ErasuresKept(net, m, t);
    }
  }

  lemma TableAlwaysOk(moves: seq<Move>)
    ensures TableOk(After(moves)) && IdsOk(After(moves))
  {
    NetOkAlways(moves);
    StreamAlwaysOk(moves);
  }

  lemma {:induction false} ListingAlwaysOk(moves: seq<Move>)
    requires After(moves).accepts <= ID_COUNT
    ensures ListingOk(After(moves))
  {
    hide Next, Allowed, ListingOk, TableOk, IdsOk;
    if moves == [] {
      NobodyListed();
    } else {
      var init, m := moves[..|moves| - 1], moves[|moves| - 1];
      if Allowed(After(init), m) {
        AcceptsGrow(After(init), m);
        ListingAlwaysOk(init);
        TableAlwaysOk(init);
        ListingKept(After(init), m);
      } else {
        ListingAlwaysOk(init);
      }
    }
  }

  lemma NobodyListed()
    ensures ListingOk(InitialNet)
  {
  }

  /** Once the server strand has run, the sessions listed are exactly the open ones. */
  lemma ListedExactlyOpen(moves: seq<Move>, n: nat)
    requires n < |After(moves).conns| && After(moves).accepts <= ID_COUNT
    ensures !After(moves).conns[n].server.closed ==> Listed(After(moves), n)
    ensures After(moves).tasks == [] ==> (Listed(After(moves), n) <==> !After(moves).conns[n].server.closed)
  {
    hide After, Listed;
    ListingAlwaysOk(moves);
  }

  // ----- Every disconnect and every shutdown closes -----

  /** The session is closed, or its close is on the way. */
  ghost predicate Doomed(net: Net, n: nat) {
    && n < |net.conns|
    && (|| net.conns[n].server.closed
        || ClosePost in net.conns[n].posted
        || (Listed(net, n) && CloseAllTask in net.tasks)
        || (Listed(net, n) && !net.inbox.stopping && DisconnectTask(net.conns[n].id) in net.tasks))
  }

  /** Running a posted close closes. */
  lemma ClosePostCloses(net: Net, m: Move, n: nat)
    requires Allowed(net, m) && n < |net.conns| && m.SessionPost? && m.n == n && net.conns[n].posted[0] == ClosePost
    ensures n < |Next(net, m).conns| && Next(net, m).conns[n].server.closed
  {
  }

  lemma StillListed(net: Net, m: Move, n: nat)
    requires ListingOk(net) && TableOk(net) && IdsOk(net) && Allowed(net, m) && Next(net, m).accepts <= ID_COUNT
    requires n < |net.conns| && !net.conns[n].server.closed && n < |Next(net, m).conns|
    ensures !Next(net, m).conns[n].server.closed ==> Listed(Next(net, m), n)
  {
    hide Next, IdsOk, TableOk, ListingOk;
    if !Next(net, m).conns[n].server.closed {
      OpenIsListed(net, m, n);
    }
  }

  lemma DoomedKept(net: Net, m: Move, n: nat)
    requires Doomed(net, n)
    requires ListingOk(net) && TableOk(net) && IdsOk(net) && Allowed(net, m) && Next(net, m).accepts <= ID_COUNT
    ensures Doomed(Next(net, m), n)
  {
    hide Next, IdsOk, TableOk, ListingOk;
    NextKeepsConns(net, m);
    ClosedExactly(net, m, n);
    if !net.conns[n].server.closed {
      StillListed(net, m, n);
      TasksExactly(net, m);
      PostsExactly(net, m, n);
      if ClosePost in net.conns[n].posted {
        if m.SessionPost? && m.n == n {
          assert net.conns[n].posted == [net.conns[n].posted[0]] + net.conns[n].posted[1..];
          if net.conns[n].posted[0] == ClosePost {
            ClosePostCloses(net, m, n);
          }
        }
      } else if m.RunTask? {
        assert net.tasks == [net.tasks[0]] + net.tasks[1..];
      }
    }
  }

  lemma {:induction false} DoomedAlways(moves: seq<Move>, more: seq<Move>, n: nat)
    requires Doomed(After(moves), n) && After(moves + more).accepts <= ID_COUNT
    ensures Doomed(After(moves + more), n)
    decreases |more|
  {
    hide Next, Allowed, Doomed, ListingOk, TableOk, IdsOk;
    if more == [] {
      assert moves + more == moves;
    } else {
      var init, m := more[..|more| - 1], more[|more| - 1];
      var before := moves + init;
      assert (moves + more)[..|moves + more| - 1] == before;
      if Allowed(After(before), m) {
        AcceptsGrow(After(before), m);
        DoomedAlways(moves, init, n);
        ListingAlwaysOk(before);
        TableAlwaysOk(before);
        DoomedKept(After(before), m, n);
      } else {
        DoomedAlways(moves, init, n);
      }
    }
  }

  /**
   * A disconnect asked for while the server runs closes its session: in every continuation, once the server strand and
   * the session's own closures have run, the session is closed.
   */
  lemma EveryDisconnectCloses(moves: seq<Move>, more: seq<Move>, n: nat)
    requires n < |After(moves).conns| && !After(moves).inbox.stopping
    requires After(moves + [GameDisconnect(After(moves).conns[n].id)] + more).accepts <= ID_COUNT
    ensures var net' := After(moves + [GameDisconnect(After(moves).conns[n].id)] + more);
            && n < |net'.conns| && net'.conns[n].id == After(moves).conns[n].id
            && (net'.tasks == [] && net'.conns[n].posted == [] ==> net'.conns[n].server.closed)
  {
    hide After, Listed, IdsOk, TableOk;
    var m := GameDisconnect(After(moves).conns[n].id);
    OneMoveMore(moves, m);
    AcceptsOnlyGrow(moves + [m], more);
    ListingAlwaysOk(moves);
    assert Listed(After(moves), n) ==> Listed(After(moves + [m]), n) by { AskedKeepsListing(After(moves), m, n); }
    DoomedAlways(moves + [m], more, n);
    IdsStay(moves + [m], more, n);
  }

  lemma AskedKeepsListing(net: Net, m: Move, n: nat)
    requires m.GameDisconnect? && n < |net.conns|
    ensures n < |Next(net, m).conns| && (Listed(net, n) ==> Listed(Next(net, m), n))
  {
  }

  lemma {:induction false} AcceptsOnlyGrow(moves: seq<Move>, more: seq<Move>)
    ensures After(moves).accepts <= After(moves + more).accepts
    decreases |more|
  {
    hide Next, Allowed;
    if more == [] {
      assert moves + more == moves;
    } else {
      var init := more[..|more| - 1];
      AcceptsOnlyGrow(moves, init);
      assert (moves + more)[..|moves + more| - 1] == moves + init;
      if Allowed(After(moves + init), more[|more| - 1]) {
        AcceptsGrow(After(moves + init), more[|more| - 1]);
      }
    }
  }

  lemma {:induction false} IdsStay(moves: seq<Move>, more: seq<Move>, n: nat)
    requires n < |After(moves).conns|
    ensures n < |After(moves + more).conns| && After(moves + more).conns[n].id == After(moves).conns[n].id
    decreases |more|
  {
    hide Next, Allowed;
    if more == [] {
      assert moves + more == moves;
    } else {
      var init := more[..|more| - 1];
      IdsStay(moves, init, n);
      assert (moves + more)[..|moves + more| - 1] == moves + init;
      if Allowed(After(moves + init), more[|more| - 1]) {
        NextKeepsConns(After(moves + init), more[|more| - 1]);
      }
    }
  }

  /** A shutdown dooms every session there is, and no other joins. */
  lemma ShutdownDooms(net: Net, m: Move, n: nat)
    requires ListingOk(net) && TableOk(net) && IdsOk(net) && Allowed(net, m) && Next(net, m).accepts <= ID_COUNT
    requires n < |Next(net, m).conns| && Next(net, m).inbox.stopping
    requires net.inbox.stopping ==> n < |net.conns| ==> Doomed(net, n)
    ensures Doomed(Next(net, m), n)
  {
    hide IdsOk, TableOk, ListingOk, Doomed, Apply, Enabled;
    TasksExactly(net, m);
    if net.inbox.stopping {
      NextKeepsConns(net, m);
      DoomedKept(net, m, n);
    } else {
      JustDoomed(net, m, n);
    }
  }

  lemma JustDoomed(net: Net, m: Move, n: nat)
    requires ListingOk(net) && TableOk(net) && IdsOk(net) && Allowed(net, m) && Next(net, m).accepts <= ID_COUNT
    requires n < |Next(net, m).conns| && !net.inbox.stopping && (m.GameShutdown? || (m.Accept? && m.late))
    ensures Doomed(Next(net, m), n)
  {
    hide IdsOk, TableOk, ListingOk, Next;
    TasksExactly(net, m);
    assert CloseAllTask in Next(net, m).tasks;
    if !Next(net, m).conns[n].server.closed {
      OpenIsListed(net, m, n);
    }
  }

  lemma {:induction false} StoppingDooms(moves: seq<Move>, n: nat)
    requires n < |After(moves).conns| && After(moves).inbox.stopping && After(moves).accepts <= ID_COUNT
    ensures Doomed(After(moves), n)
  {
    hide Next, Allowed, Doomed, ListingOk, TableOk, IdsOk;
    if moves != [] {
      var init, m := moves[..|moves| - 1], moves[|moves| - 1];
      if Allowed(After(init), m) {
        AcceptsGrow(After(init), m);
        if After(init).inbox.stopping && n < |After(init).conns| {
          StoppingDooms(init, n);
        }
        ListingAlwaysOk(init);
        TableAlwaysOk(init);
        ShutdownDooms(After(init), m, n);
      } else {
        StoppingDooms(init, n);
      }
    }
  }

  /** After a shutdown, once the server strand and a session's own closures have run, the session is closed. */
  lemma ShutdownClosesAll(moves: seq<Move>, n: nat)
    requires n < |After(moves).conns| && After(moves).inbox.stopping && After(moves).accepts <= ID_COUNT
    ensures After(moves).tasks == [] && After(moves).conns[n].posted == [] ==> After(moves).conns[n].server.closed
  {
    hide After;
    StoppingDooms(moves, n);
  }
}
