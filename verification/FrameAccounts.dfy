/** Where every frame is, at every point of every run: no frame is lost, kept twice or released twice. */
module FrameAccounts {
  import opened Bytes
  import opened Codec
  import opened Endpoint
  import opened Network
  import opened Delivery

  // ----- One session -----

  /** The frames held by closures posted to a session's strand. */
  function InClosures(posts: seq<Post>): multiset<Bytes> {
    if posts == [] then multiset{} else
      OfPost(posts[0]) + InClosures(posts[1..])
  }

  function OfPost(p: Post): multiset<Bytes> {
    match p case EnqueuePost(frame) => multiset{frame} case ClosePost => multiset{}
  }

  lemma OneClosureFirst(p: Post, posts: seq<Post>)
    ensures InClosures([p] + posts) == OfPost(p) + InClosures(posts)
  {
    assert ([p] + posts)[1..] == posts;
  }

  lemma NoClosures()
    ensures InClosures([]) == multiset{}
  {
  }

  lemma {:induction false} ClosuresConcat(a: seq<Post>, b: seq<Post>)
    ensures InClosures(a + b) == InClosures(a) + InClosures(b)
  {
    hide InClosures, OfPost;
    NoClosures();
    if a == [] {
      assert a + b == b;
    } else {
      var rest := a[1..];
      ClosuresConcat(rest, b);
      OneClosureFirst(a[0], rest);
      OneClosureFirst(a[0], rest + b);
      assert a == [a[0]] + rest && a + b == [a[0]] + (rest + b);
    }
  }

  /** The frames a move acquires for connection `n`: one handed to its strand, or a keepalive its timer builds. */
  ghost function AcquiredBy(net: Net, m: Move, n: nat): multiset<Bytes>
    requires Allowed(net, m) && n < |net.conns|
  {
    match m
    case RunTask =>
      if net.inbox.stopping then multiset{}
      else
        (match net.tasks[0]
         case SendTask(id, frame) => if id in net.table && net.table[id] == n then multiset{frame} else multiset{}
         case BroadcastTask(frame) => if Listed(net, n) then multiset{frame} else multiset{}
         case _ => multiset{})
    case SessionIo(k, a, now, _) =>
      if k == n && OutStepOf(net.conns[n].server, a, now, false).Put? then multiset{KEEPALIVE_FRAME} else multiset{}
    case _ => multiset{}
  }

  /** All frames acquired for sending to the n-th connection so far. */
  ghost function Acquired(moves: seq<Move>, n: nat): multiset<Bytes> {
    if moves == [] then multiset{}
    else
      var init, m := moves[..|moves| - 1], moves[|moves| - 1];
      Acquired(init, n) + if Allowed(After(init), m)
          && n < |After(init).conns| then AcquiredBy(After(init), m, n) else multiset{}
  }

  /** The frames a session has: in closures, and those its automaton was handed. */
  ghost function Held(c: Conn): multiset<Bytes> { InClosures(c.posted) + c.server.out.pushed }

  lemma PushedAfter(e: Endpoint, a: Action, now: nat)
    requires Enabled(e, a, now)
    ensures Apply(e, a, now, false).out.pushed
            == e.out.pushed + match OutStepOf(e, a, now, false)
                              case Put(frame, _) => multiset{frame}
                              case _ => multiset{}
  {
    OutAfter(e, a, now, false);
  }

  lemma OneClosureLast(posts: seq<Post>, p: Post)
    ensures InClosures(posts + [p]) == InClosures(posts) + OfPost(p)
  {
    ClosuresConcat(posts, [p]);
    OneClosureFirst(p, []);
    assert [p] + [] == [p];
  }

  /** What a closure of the server strand posts to a session. */
  lemma TaskPosts(net: Net, n: nat)
    requires net.tasks != [] && n < |net.conns|
    ensures n < |Next(net, RunTask).conns|
    ensures var c, c' := net.conns[n], Next(net, RunTask).conns[n];
            && c'.server == c.server
            && if c'.posted == c.posted then AcquiredBy(net, RunTask, n) == multiset{}
               else exists p :: c'.posted == c.posted + [p] && AcquiredBy(net, RunTask, n) == OfPost(p)
  {
    hide InClosures;
    var c, c' := net.conns[n], Next(net, RunTask).conns[n];
    if c'.posted != c.posted {
      assert c'.posted == c.posted + [c'.posted[|c.posted|]];
    }
  }

  lemma TaskAccounts(net: Net, n: nat)
    requires net.tasks != [] && n < |net.conns|
    ensures n < |Next(net, RunTask).conns|
    ensures Held(Next(net, RunTask).conns[n]) == Held(net.conns[n]) + AcquiredBy(net, RunTask, n)
  {
    hide Next, AcquiredBy, InClosures;
    TaskPosts(net, n);
    var c, c' := net.conns[n], Next(net, RunTask).conns[n];
    if c'.posted != c.posted {
      var p :| c'.posted == c.posted + [p] && AcquiredBy(net, RunTask, n) == OfPost(p);
      OneClosureLast(c.posted, p);
    }
  }

  lemma IoAccounts(net: Net, k: nat, a: Action, now: nat, room: bool, n: nat)
    requires Allowed(net, SessionIo(k, a, now, room)) && n < |net.conns|
    ensures var net' := Next(net, SessionIo(k, a, now, room));
            n < |net'.conns| && Held(net'.conns[n])
                == Held(net.conns[n]) + AcquiredBy(net, SessionIo(k, a, now, room), n)
  {
    hide Apply;
    PushedAfter(net.conns[k].server, a, now);
  }

  lemma PostAccounts(net: Net, k: nat, now: nat, room: bool, n: nat)
    requires Allowed(net, SessionPost(k, now, room)) && n < |net.conns|
    ensures var net' := Next(net, SessionPost(k, now, room));
            n < |net'.conns| && Held(net'.conns[n]) == Held(net.conns[n])
  {
    hide Apply;
    PushedAfter(net.conns[k].server, PostAction(net.conns[k].posted[0]), now);
  }

  lemma OtherAccounts(net: Net, m: Move, n: nat)
    requires Allowed(net, m) && n < |net.conns| && !m.RunTask? && !m.SessionIo? && !m.SessionPost?
    ensures n < |Next(net, m).conns|
    ensures Next(net, m).conns[n].posted == net.conns[n].posted && Next(net, m).conns[n].server == net.conns[n].server
  {
    hide Enabled, Apply;
  }

  lemma StepAccounts(net: Net, m: Move, n: nat)
    requires Allowed(net, m) && n < |net.conns|
    ensures n < |Next(net, m).conns| && Held(Next(net, m).conns[n]) == Held(net.conns[n]) + AcquiredBy(net, m, n)
  {
    match m {
      case RunTask => TaskAccounts(net, n);
      case SessionIo(k, a, now, room) => IoAccounts(net, k, a, now, room, n);
      case SessionPost(k, now, room) => PostAccounts(net, k, now, room, n);
      case _ => OtherAccounts(net, m, n);
    }
  }

  lemma NewcomersHoldNothing(net: Net, m: Move, n: nat)
    requires Allowed(net, m) && |net.conns| <= n < |Next(net, m).conns|
    ensures Held(Next(net, m).conns[n]) == multiset{}
  {
    hide Enabled, Apply;
  }

  lemma {:induction false} AllIsHeld(moves: seq<Move>, n: nat)
    ensures Acquired(moves, n) == if n < |After(moves).conns| then Held(After(moves).conns[n]) else multiset{}
  {
    hide Next, Held, AcquiredBy;
    if moves != [] {
      var init, m := moves[..|moves| - 1], moves[|moves| - 1];
      AllIsHeld(init, n);
      if Allowed(After(init), m) {
        if n < |After(init).conns| {
          StepAccounts(After(init), m, n);
        } else if n < |Next(After(init), m).conns| {
          NewcomersHoldNothing(After(init), m, n);
        }
      }
    }
  }

  /**
   * At every point of every run, each frame acquired for sending to a session is in exactly one of three places:
   * a closure posted to its strand, its write queue, or the frames given back to the pool.
   */
  lemma EveryFrameIsInOnePlace(moves: seq<Move>, n: nat)
    requires n < |After(moves).conns|
    ensures var c := After(moves).conns[n];
            Acquired(moves, n) == InClosures(c.posted) + multiset(c.server.out.queue) + c.server.out.released
  {
    hide After, Acquired;
    AllIsHeld(moves, n);
    NetOkAlways(moves);
    NetOkAt(After(moves), n);
  }

  // ----- The server strand -----

  /** What a frame on the server strand was built for: a send to a session, or, as a template, a broadcast. */
  datatype Use = SendTo(id: u32) | Template

  /** The frame a call builds. */
  function OfCall(op: Op, u: Use): multiset<Bytes> {
    if |op.payload| <= MAX_PAYLOAD_SIZE && u == (if op.SendOp? then SendTo(op.id) else Template) then
      multiset{DataFrame(op.payload)}
    else multiset{}
  }

  function BuiltFor(ops: seq<Op>, u: Use): multiset<Bytes> {
    if ops == [] then multiset{} else BuiltFor(ops[..|ops| - 1], u) + OfCall(ops[|ops| - 1], u)
  }

  function OfTask(t: Task, u: Use): multiset<Bytes> {
    match t
    case SendTask(id, frame) => if u == SendTo(id) then multiset{frame} else multiset{}
    case BroadcastTask(frame) => if u.Template? then multiset{frame} else multiset{}
    case _ => multiset{}
  }

  /** The frames held by closures posted to the server strand. */
  function InTasks(tasks: seq<Task>, u: Use): multiset<Bytes> {
    if tasks == [] then multiset{} else OfTask(tasks[0], u) + InTasks(tasks[1..], u)
  }

  lemma OneTaskFirst(t: Task, tasks: seq<Task>, u: Use)
    ensures InTasks([t] + tasks, u) == OfTask(t, u) + InTasks(tasks, u)
  {
    assert ([t] + tasks)[1..] == tasks;
  }

  lemma NoTasks(u: Use)
    ensures InTasks([], u) == multiset{} && BuiltFor([], u) == multiset{}
  {
  }

  lemma {:induction false} OneTaskLast(tasks: seq<Task>, t: Task, u: Use)
    ensures InTasks(tasks + [t], u) == InTasks(tasks, u) + OfTask(t, u)
  {
    hide InTasks, OfTask;
    NoTasks(u);
    if tasks == [] {
      OneTaskFirst(t, [], u);
      assert tasks + [t] == [t] + [];
    } else {
      var rest := tasks[1..];
      OneTaskLast(rest, t, u);
      OneTaskFirst(tasks[0], rest, u);
      OneTaskFirst(tasks[0], rest + [t], u);
      assert tasks == [tasks[0]] + rest && tasks + [t] == [tasks[0]] + (rest + [t]);
    }
  }

  lemma OneCallLast(ops: seq<Op>, op: Op, u: Use)
    ensures BuiltFor(ops + [op], u) == BuiltFor(ops, u) + OfCall(op, u)
  {
    hide OfCall;
    assert (ops + [op])[..|ops|] == ops;
  }

  /**
   * A send's frame goes on to its session if it is there; all other frames the strand gives back, templates included.
   */
  predicate GoesOn(net: Net, u: Use) {
    u.SendTo? && !net.inbox.stopping && u.id in net.table
  }

  /** The frames that closures of the server strand passed on to a session, or gave back to the pool. */
  ghost function Finished(moves: seq<Move>, u: Use, passed: bool): multiset<Bytes> {
    if moves == [] then multiset{}
    else
      var init, m := moves[..|moves| - 1], moves[|moves| - 1];
      Finished(init, u, passed)
      + if Allowed(After(init), m) && m.RunTask?
          && passed == GoesOn(After(init), u) then OfTask(After(init).tasks[0], u)
        else multiset{}
  }

  /** What a move does to the calls issued and to the closures of the server strand. */
  datatype StrandMove = Took | Called(op: Op, task: Task) | Added(task: Task) | Nothing

  function StrandMoveOf(net: Net, m: Move): StrandMove
    requires Allowed(net, m)
  {
    if m.RunTask? then Took
    else if m.GameSend? && SendablePayload(m.payload) && !net.inbox.stopping then
      Called(SendOp(m.id, m.payload), SendTask(m.id, DataFrame(m.payload)))
    else if m.GameBroadcast? && SendablePayload(m.payload) && !net.inbox.stopping then
      Called(BroadcastOp(m.payload), BroadcastTask(DataFrame(m.payload)))
    else if net.tasks < Next(net, m).tasks then Added(Next(net, m).tasks[|net.tasks|])
    else Nothing
  }

  ghost predicate MovedBy(net: Net, net': Net, sm: StrandMove) {
    match sm
    case Took => net.tasks != [] && net'.issued == net.issued && net'.tasks == net.tasks[1..]
    case Called(op, task) => net'.issued == net.issued + [op] && net'.tasks == net.tasks + [task]
    case Added(task) => net'.issued == net.issued && net'.tasks == net.tasks + [task]
    case Nothing => net'.issued == net.issued && net'.tasks == net.tasks
  }

  /** The closure posted by a call holds the frame the call built; other closures hold none. */
  ghost predicate SameFrame(sm: StrandMove, u: Use) {
    && (sm.Called? ==> OfCall(sm.op, u) == OfTask(sm.task, u))
    && (sm.Added? ==> OfTask(sm.task, u) == multiset{})
  }

  lemma StrandStep(net: Net, m: Move)
    requires Allowed(net, m)
    ensures StrandMoveOf(net, m).Took? <==> m.RunTask?
    ensures MovedBy(net, Next(net, m), StrandMoveOf(net, m))
    ensures var sm := StrandMoveOf(net, m); sm.Added? ==> !sm.task.SendTask? && !sm.task.BroadcastTask?
  {
    hide Enabled, Apply, DataFrame;
  }

  lemma CallsShareTheFrame(net: Net, m: Move, u: Use)
    requires Allowed(net, m)
    requires var sm := StrandMoveOf(net, m); sm.Added? ==> !sm.task.SendTask? && !sm.task.BroadcastTask?
    ensures SameFrame(StrandMoveOf(net, m), u)
  {
    hide Next, Enabled, Apply, DataFrame;
  }

  lemma BuiltStep(net: Net, m: Move, u: Use)
    requires Allowed(net, m)
    ensures StrandMoveOf(net, m).Took? <==> m.RunTask?
    ensures BuiltFor(Next(net, m).issued, u) + InTasks(net.tasks, u)
            == BuiltFor(net.issued, u) + InTasks(Next(net, m).tasks, u)
               + if m.RunTask? then OfTask(net.tasks[0], u) else multiset{}
  {
    hide Next, Allowed, MovedBy, SameFrame, StrandMoveOf, BuiltFor, InTasks, OfTask;
    StrandStep(net, m);
    CallsShareTheFrame(net, m, u);
    StrandSums(net, Next(net, m), StrandMoveOf(net, m), u);
  }

  lemma StrandSums(net: Net, net': Net, sm: StrandMove, u: Use)
    requires MovedBy(net, net', sm) && SameFrame(sm, u)
    ensures sm.Took? ==> net.tasks != []
    ensures BuiltFor(net'.issued, u) + InTasks(net.tasks, u)
            == BuiltFor(net.issued, u) + InTasks(net'.tasks, u) + if sm.Took? then OfTask(net.tasks[0], u)
                else multiset{}
  {
    hide BuiltFor, InTasks, OfTask, OfCall;
    match sm {
      case Took =>
        OneTaskFirst(net.tasks[0], net.tasks[1..], u);
        assert net.tasks == [net.tasks[0]] + net.tasks[1..];
      case Called(op, task) =>
        OneCallLast(net.issued, op, u);
        OneTaskLast(net.tasks, task, u);
      case Added(task) => OneTaskLast(net.tasks, task, u);
      case Nothing =>
    }
  }

  /**
   * Every frame built by a send or a broadcast waits on the server strand, or was passed on to its session, or was
   * given back; a broadcast's template is never passed on.
   */
  lemma {:induction false} EveryCallIsAccountedFor(moves: seq<Move>, u: Use)
    ensures BuiltFor(After(moves).issued, u)
            == InTasks(After(moves).tasks, u) + Finished(moves, u, true) + Finished(moves, u, false)
    ensures u.Template? ==> Finished(moves, u, true) == multiset{}
  {
    hide Next, BuiltFor, InTasks, OfTask;
    if moves == [] {
      NoTasks(u);
    } else {
      var init, m := moves[..|moves| - 1], moves[|moves| - 1];
      EveryCallIsAccountedFor(init, u);
      if Allowed(After(init), m) {
        BuiltStep(After(init), m, u);
        Cancel(BuiltFor(After(moves).issued, u), InTasks(After(init).tasks, u), BuiltFor(After(init).issued, u),
               InTasks(After(moves).tasks, u), Finished(init, u, true), Finished(init, u, false),
               if m.RunTask? then OfTask(After(init).tasks[0], u) else multiset{});
      }
    }
  }

  lemma Cancel(built': multiset<Bytes>, tasks: multiset<Bytes>, built: multiset<Bytes>, tasks': multiset<Bytes>,
               p: multiset<Bytes>, q: multiset<Bytes>, x: multiset<Bytes>)
    requires built' + tasks == built + tasks' + x && built == tasks + p + q
    ensures built' == tasks' + (p + x) + q && built' == tasks' + p + (q + x)
  {
    forall f: Bytes ensures built'[f] == tasks'[f] + p[f] + q[f] + x[f] {
      assert (built' + tasks)[f] == (built + tasks' + x)[f];
    }
  }
}
