/**
 * The packets of each session as the game thread sees them: their order over the session's life, and their payloads.
 */
module Lifecycle {
  import opened Bytes
  import opened Codec
  import opened Endpoint
  import opened Drain
  import opened PacketQueue
  import opened Network
  import opened Channel
  import opened Delivery

  // ----- Session ids -----

  const ID_COUNT := 0x1_0000_0000

  /** The id given to the k-th accept, counting from zero. */
  function IdOf(k: nat): u32 { (1 + k) % ID_COUNT }

  /** The first 2^32 accepts get distinct ids, and no more than that. */
  lemma IdsDistinctExactlyUpToWrap(accepts: nat)
    ensures (forall a: nat, b: nat :: a < b < accepts ==> IdOf(a) != IdOf(b)) <==> accepts <= ID_COUNT
  {
    if accepts > ID_COUNT {
      assert IdOf(0) == IdOf(ID_COUNT);
    }
  }

  ghost predicate IdsOk(net: Net) {
    && net.nextId == IdOf(net.accepts)
    && (forall i :: 0 <= i < |net.conns| ==>
          net.conns[i].serial < net.accepts && net.conns[i].id == IdOf(net.conns[i].serial))
    && (forall i, j :: 0 <= i < j < |net.conns| ==> net.conns[i].serial < net.conns[j].serial)
  }

  /** What identifies a connection never changes, and connections are only added. */
  ghost predicate SameConns(net: Net, net': Net) {
    && |net.conns| <= |net'.conns|
    && forall i :: 0 <= i < |net.conns| ==>
         && net'.conns[i].id == net.conns[i].id && net'.conns[i].serial == net.conns[i].serial
         && net'.conns[i].joinedAt == net.conns[i].joinedAt
  }

  lemma TaskKeepsConns(net: Net)
    requires net.tasks != []
    ensures var net' := StepTask(net);
            && SameConns(net, net') && |net'.conns| == |net.conns|
            && net'.accepts == net.accepts && net'.nextId == net.nextId
  {
  }

  lemma SessionKeepsConns(net: Net, m: Move)
    requires Allowed(net, m) && (m.SessionPost? || m.SessionIo?)
    ensures var net' := Next(net, m);
            && SameConns(net, net') && |net'.conns| == |net.conns|
            && net'.accepts == net.accepts && net'.nextId == net.nextId
  {
    hide Enabled, Apply, PushAll, CallbackPackets;
  }

  lemma NextKeepsConns(net: Net, m: Move)
    requires Allowed(net, m)
    ensures SameConns(net, Next(net, m))
    ensures !m.Accept? ==> |Next(net, m).conns| == |net.conns|
                           && Next(net, m).accepts == net.accepts && Next(net, m).nextId == net.nextId
  {
    hide Enabled, Apply, StepTask, StepSession, StepClient, SendFromClient, PollClient, Push, Poll, DataFrame;
    match m {
      case RunTask => TaskKeepsConns(net);
      case SessionPost(_, _, _) => SessionKeepsConns(net, m);
      case SessionIo(_, _, _, _) => SessionKeepsConns(net, m);
      case _ =>
    }
  }

  lemma IdsKept(net: Net, m: Move)
    requires IdsOk(net) && Allowed(net, m)
    ensures IdsOk(Next(net, m))
  {
    hide Enabled, Apply;
    NextKeepsConns(net, m);
  }

  lemma DistinctIds(net: Net, i: nat, j: nat)
    requires IdsOk(net) && net.accepts <= ID_COUNT && i < |net.conns| && j < |net.conns| && i != j
    ensures net.conns[i].id != net.conns[j].id
  {
    IdsDistinctExactlyUpToWrap(net.accepts);
  }

  // ----- The life of a session in the packet stream -----

  datatype Life = Unseen | Alive | Gone(extra: nat) | Broken

  /** Connect comes first and once, Disconnect at most once; `extra` counts Data packets after the Disconnect. */
  function LifeNext(l: Life, p: Packet): Life {
    match p
    case Connect(_) => if l.Unseen? then Alive else Broken
    case Disconnect(_) => if l.Alive? then Gone(0) else Broken
    case Data(_, _) => if l.Alive? then Alive else if l.Gone? then Gone(l.extra + 1) else Broken
  }

  function LifeOf(ps: seq<Packet>, id: u32): Life {
    if ps == [] then Unseen
    else
      var before := LifeOf(ps[..|ps| - 1], id);
      if ps[|ps| - 1].id == id then LifeNext(before, ps[|ps| - 1]) else before
  }

  function PayloadsOf(ps: seq<Packet>, id: u32): seq<Bytes> {
    if ps == [] then []
    else
      var last := ps[|ps| - 1];
      PayloadsOf(ps[..|ps| - 1], id) + (if last.Data? && last.id == id then [last.payload] else [])
  }

  lemma OnePacketMore(ps: seq<Packet>, p: Packet, id: u32)
    ensures LifeOf(ps + [p], id) == if p.id == id then LifeNext(LifeOf(ps, id), p) else LifeOf(ps, id)
    ensures PayloadsOf(ps + [p], id) == PayloadsOf(ps, id) + if p.Data? && p.id == id then [p.payload] else []
  {
    assert (ps + [p])[..|ps|] == ps;
  }

  /** How the life seen so far matches the state of the session's automaton. */
  ghost predicate LifeMatches(l: Life, e: Endpoint, lossless: bool) {
    && (l.Alive? || (l.Gone? && e.closed && l.extra + LateDeliveries(e) <= 1))
    && (lossless && e.closed ==> l.Gone?)
  }

  ghost predicate Traced(stream: seq<Packet>, c: Conn, lossless: bool) {
    && LifeMatches(LifeOf(stream, c.id), c.server, lossless)
    && Subsequence(PayloadsOf(stream, c.id), DataOf(c.server.inlet.heard))
    && (lossless ==> PayloadsOf(stream, c.id) == DataOf(c.server.inlet.heard))
  }

  predicate Lossless(b: Inbox) { b.dropped == 0 && b.refused == 0 }

  ghost predicate LifeOk(net: Net) {
    && (forall i :: 0 <= i < |net.conns| ==> Traced(net.inbox.Stream(), net.conns[i], Lossless(net.inbox)))
    && (forall id: u32 :: (forall i :: 0 <= i < |net.conns| ==> net.conns[i].id != id)
                          ==> LifeOf(net.inbox.Stream(), id) == Unseen)
  }

  lemma TracedAt(net: Net, i: nat)
    requires LifeOk(net) && i < |net.conns|
    ensures Traced(net.inbox.Stream(), net.conns[i], Lossless(net.inbox))
  {
  }

  // ----- Kept by every move -----

  /** What a step of a session does to its automaton, as far as the packets show it. */
  lemma CallbacksMatch(e: Endpoint, a: Action, now: nat, id: u32)
    requires Reader(e.inlet) && Enabled(e, a, now)
    ensures var e' := Apply(e, a, now, false);
            && (e.closed ==> e'.closed && LateDeliveries(e') + |Delivered(e, a, false)| <= LateDeliveries(e))
            && (Delivered(e, a, false) != [] ==> e'.closed == e.closed)
            && |Delivered(e, a, false)| <= 1 && LateDeliveries(e') <= 1
            && DataOf(e'.inlet.heard) == DataOf(e.inlet.heard) + Delivered(e, a, false)
  {
    HeardDelivers(e, a, now, false);
  }

  lemma LifeAfterOwnStep(b: Inbox, c: Conn, a: Action, now: nat, room: bool)
    requires Reader(c.server.inlet) && Enabled(c.server, a, now) && Conserved(b)
    requires LifeMatches(LifeOf(b.Stream(), c.id), c.server, Lossless(b))
    ensures var b' := PushAll(b, CallbackPackets(c.id, c.server, a, now), room);
            LifeMatches(LifeOf(b'.Stream(), c.id), Apply(c.server, a, now, false), Lossless(b'))
  {
    hide Apply, Enabled, Delivered, LateDeliveries, Reader, Conserved;
    CallbacksMatch(c.server, a, now, c.id);
    var ps := CallbackPackets(c.id, c.server, a, now);
    if ps != [] {
      PushConserves(b, ps[0], room);
      OnePacketMore(b.Stream(), ps[0], c.id);
    }
  }

  lemma PayloadsAfterOwnStep(b: Inbox, c: Conn, a: Action, now: nat, room: bool)
    requires Reader(c.server.inlet) && Enabled(c.server, a, now) && Conserved(b)
    requires Subsequence(PayloadsOf(b.Stream(), c.id), DataOf(c.server.inlet.heard))
    requires Lossless(b) ==> PayloadsOf(b.Stream(), c.id) == DataOf(c.server.inlet.heard)
    ensures var b' := PushAll(b, CallbackPackets(c.id, c.server, a, now), room);
            var heard' := DataOf(Apply(c.server, a, now, false).inlet.heard);
            && Subsequence(PayloadsOf(b'.Stream(), c.id), heard')
            && (Lossless(b') ==> PayloadsOf(b'.Stream(), c.id) == heard')
  {
    hide Apply, Enabled, Delivered, CallbackPackets, LateDeliveries, Reader, Conserved, Subsequence, PayloadsOf, DataOf;
    CallbacksMatch(c.server, a, now, c.id);
    CallbackShape(c.id, c.server, a, now);
    var got, ps := Delivered(c.server, a, false), CallbackPackets(c.id, c.server, a, now);
    if ps == [] {
      assert DataOf(c.server.inlet.heard) + [] == DataOf(c.server.inlet.heard);
    } else {
      PayloadsAfterPush(b, ps[0], room, DataOf(c.server.inlet.heard));
      assert DataOf(c.server.inlet.heard) + [] == DataOf(c.server.inlet.heard);
      assert got != [] ==> got == [got[0]];
    }
  }

  /** At most one callback: the payload delivered, or the close. */
  lemma CallbackShape(id: u32, e: Endpoint, a: Action, now: nat)
    requires Enabled(e, a, now)
    ensures var got, ps := Delivered(e, a, false), CallbackPackets(id, e, a, now);
            if got == [] then ps == [] || ps == [Disconnect(id)] else |got| == 1 && ps == [Data(id, got[0])]
  {
    hide Apply, Enabled;
  }

  lemma PayloadsAfterPush(b: Inbox, p: Packet, room: bool, heard: seq<Bytes>)
    requires Conserved(b) && Subsequence(PayloadsOf(b.Stream(), p.id), heard)
    requires Lossless(b) ==> PayloadsOf(b.Stream(), p.id) == heard
    ensures var b' := Push(b, p, room);
            var heard' := heard + if p.Data? then [p.payload] else [];
            && Subsequence(PayloadsOf(b'.Stream(), p.id), heard')
            && (Lossless(b') ==> PayloadsOf(b'.Stream(), p.id) == heard')
  {
    hide Conserved, Subsequence, PayloadsOf;
    var payloads := PayloadsOf(b.Stream(), p.id);
    PushConserves(b, p, room);
    OnePacketMore(b.Stream(), p, p.id);
    assert heard + [] == heard && payloads + [] == payloads;
    if p.Data? {
      SubsequenceKeep(payloads, heard, p.payload);
      SubsequenceSkip(payloads, heard, p.payload);
    }
  }

  lemma TracedAfterOwnStep(b: Inbox, c: Conn, a: Action, now: nat, room: bool)
    requires Reader(c.server.inlet) && Enabled(c.server, a, now)
    requires Traced(b.Stream(), c, Lossless(b)) && Conserved(b)
    ensures var b' := PushAll(b, CallbackPackets(c.id, c.server, a, now), room);
            Traced(b'.Stream(), c.(server := Apply(c.server, a, now, false)), Lossless(b'))
  {
    hide Apply, Enabled, Reader, Conserved, LifeMatches, CallbackPackets;
    LifeAfterOwnStep(b, c, a, now, room);
    PayloadsAfterOwnStep(b, c, a, now, room);
  }

  lemma TracedAfterOtherStep(b: Inbox, c: Conn, p: Packet, room: bool)
    requires Traced(b.Stream(), c, Lossless(b)) && Conserved(b) && p.id != c.id
    ensures Traced(Push(b, p, room).Stream(), c, Lossless(Push(b, p, room)))
  {
    PushConserves(b, p, room);
    OnePacketMore(b.Stream(), p, c.id);
    assert PayloadsOf(b.Stream(), c.id) + [] == PayloadsOf(b.Stream(), c.id);
  }

  lemma UnseenAfterPush(b: Inbox, p: Packet, room: bool, id: u32)
    requires Conserved(b) && LifeOf(b.Stream(), id) == Unseen && p.id != id
    ensures LifeOf(Push(b, p, room).Stream(), id) == Unseen
  {
    PushConserves(b, p, room);
    OnePacketMore(b.Stream(), p, id);
  }

  lemma SessionStepKeepsLife(net: Net, n: nat, c: Conn, a: Action, now: nat, room: bool)
    requires LifeOk(net) && IdsOk(net) && net.accepts <= ID_COUNT && Conserved(net.inbox)
    requires n < |net.conns| && c == net.conns[n].(posted := c.posted)
    requires Reader(c.server.inlet) && Enabled(c.server, a, now)
    ensures LifeOk(StepSession(net.(conns := net.conns[n := c]), n, a, now, room))
  {
    hide Traced, Apply, Enabled, Conserved, CallbackPackets, IdsOk;
    var net' := StepSession(net.(conns := net.conns[n := c]), n, a, now, room);
    var ps := CallbackPackets(c.id, c.server, a, now);
    CallbackId(c.id, c.server, a, now);
    forall i | 0 <= i < |net'.conns| ensures Traced(net'.inbox.Stream(), net'.conns[i], Lossless(net'.inbox)) {
      TracedAt(net, i);
      if i == n {
        TracedIgnoresPosted(net.inbox.Stream(), net.conns[n], c, Lossless(net.inbox));
        TracedAfterOwnStep(net.inbox, c, a, now, room);
      } else if ps != [] {
        DistinctIds(net, i, n);
        TracedAfterOtherStep(net.inbox, net.conns[i], ps[0], room);
      }
    }
    forall id: u32 | forall i :: 0 <= i < |net'.conns| ==> net'.conns[i].id != id
      ensures LifeOf(net'.inbox.Stream(), id) == Unseen
    {
      assert forall i :: 0 <= i < |net.conns| ==> net'.conns[i].id == net.conns[i].id;
      assert net'.conns[n].id == c.id;
      if ps != [] {
        UnseenAfterPush(net.inbox, ps[0], room, id);
      }
    }
  }

  lemma CallbackId(id: u32, e: Endpoint, a: Action, now: nat)
    requires Enabled(e, a, now)
    ensures forall p :: p in CallbackPackets(id, e, a, now) ==> p.id == id
  {
    hide Apply, Enabled;
  }

  lemma TracedIgnoresPosted(stream: seq<Packet>, c: Conn, c': Conn, lossless: bool)
    requires Traced(stream, c, lossless) && c'.id == c.id && c'.server == c.server
    ensures Traced(stream, c', lossless)
  {
  }

  lemma NextIdIsFresh(net: Net)
    requires IdsOk(net) && net.accepts < ID_COUNT
    ensures forall i :: 0 <= i < |net.conns| ==> net.conns[i].id != net.nextId
  {
    IdsDistinctExactlyUpToWrap(net.accepts + 1);
  }

  /** The first packet of a fresh id, as seen by the session just started. */
  lemma JoinedIsTraced(b: Inbox, c: Conn, now: nat)
    requires LifeOf(b.Stream(), c.id) == Unseen && Conserved(b) && Succeeds(b, true) && c.server == Started(now)
    ensures Traced(Push(b, Connect(c.id), true).Stream(), c, Lossless(Push(b, Connect(c.id), true)))
  {
    PushConserves(b, Connect(c.id), true);
    OnePacketMore(b.Stream(), Connect(c.id), c.id);
    UnseenCarriesNothing(b.Stream(), c.id);
  }

  lemma AcceptKeepsLife(net: Net, now: nat, room: bool, peer: Peer)
    requires LifeOk(net) && IdsOk(net) && net.accepts < ID_COUNT && Conserved(net.inbox)
    ensures LifeOk(StepAccept(net, now, room, peer))
  {
    hide Conserved, IdsOk, Traced, StartedAfter;
    var net', b, p := StepAccept(net, now, room, peer), net.inbox, Connect(net.nextId);
    NextIdIsFresh(net);
    forall i | 0 <= i < |net'.conns| ensures Traced(net'.inbox.Stream(), net'.conns[i], Lossless(net'.inbox)) {
      if i < |net.conns| {
        TracedAt(net, i);
        TracedAfterOtherStep(b, net.conns[i], p, room);
      } else {
        JoinedIsTraced(b, net'.conns[i], now);
      }
    }
    forall id: u32 | forall i :: 0 <= i < |net'.conns| ==> net'.conns[i].id != id
      ensures LifeOf(net'.inbox.Stream(), id) == Unseen
    {
      assert forall i :: 0 <= i < |net.conns| ==> net'.conns[i].id == net.conns[i].id;
      UnseenUnlessJoined(net, now, room, peer, id);
    }
  }

  lemma UnseenUnlessJoined(net: Net, now: nat, room: bool, peer: Peer, id: u32)
    requires Conserved(net.inbox) && LifeOf(net.inbox.Stream(), id) == Unseen
    requires var net' := StepAccept(net, now, room, peer);
             forall i :: 0 <= i < |net'.conns| ==> net'.conns[i].id != id
    ensures LifeOf(StepAccept(net, now, room, peer).inbox.Stream(), id) == Unseen
  {
    PushConserves(net.inbox, Connect(net.nextId), room);
    if Succeeds(net.inbox, room) {
      assert StepAccept(net, now, room, peer).conns[|net.conns|].id == net.nextId;
      UnseenAfterPush(net.inbox, Connect(net.nextId), room, id);
    }
  }

  lemma {:induction false} UnseenCarriesNothing(ps: seq<Packet>, id: u32)
    requires LifeOf(ps, id).Unseen?
    ensures PayloadsOf(ps, id) == []
  {
    if ps != [] {
      UnseenCarriesNothing(ps[..|ps| - 1], id);
    }
  }

  /** All other moves leave the stream, the drop counters and the sessions' automata alone. */
  lemma OtherMovesKeepServers(net: Net, m: Move)
    requires Allowed(net, m) && Conserved(net.inbox) && !m.Accept? && !m.SessionPost? && !m.SessionIo?
    ensures var net' := Next(net, m);
            && net'.inbox.Stream() == net.inbox.Stream() && Lossless(net'.inbox) == Lossless(net.inbox)
            && |net'.conns| == |net.conns|
            && forall i :: 0 <= i < |net.conns| ==>
                 net'.conns[i].server == net.conns[i].server && net'.conns[i].id == net.conns[i].id
  {
    hide Enabled, Apply, Conserved;
    PollConserves(net.inbox);
  }

  lemma AcceptMoveKeepsLife(net: Net, now: nat, room: bool, late: bool, peer: Peer)
    requires LifeOk(net) && IdsOk(net) && Conserved(net.inbox)
    requires Allowed(net, Accept(now, room, late, peer)) && Next(net, Accept(now, room, late, peer)).accepts <= ID_COUNT
    ensures LifeOk(Next(net, Accept(now, room, late, peer)))
  {
    hide LifeOk, Conserved, IdsOk, Push;
    OtherMoveKeepsLife(net, GameShutdown);
    InboxKept(net, GameShutdown);
    IdsKept(net, GameShutdown);
    AcceptKeepsLife(if late then ShutDown(net) else net, now, room, peer);
  }

  lemma SessionMoveKeepsLife(net: Net, m: Move)
    requires LifeOk(net) && IdsOk(net) && Conserved(net.inbox) && NetOk(net) && net.accepts <= ID_COUNT
    requires Allowed(net, m) && (m.SessionPost? || m.SessionIo?)
    ensures LifeOk(Next(net, m))
  {
    hide NetOk, LifeOk, Apply, Enabled, Conserved, IdsOk, PushAll, CallbackPackets;
    NetOkAt(net, m.n);
    match m {
      case SessionPost(n, now, room) =>
        var c := net.conns[n];
        SessionStepKeepsLife(net, n, c.(posted := c.posted[1..]), PostAction(c.posted[0]), now, room);
      case SessionIo(n, a, now, room) =>
        assert net.conns[n := net.conns[n]] == net.conns;
        SessionStepKeepsLife(net, n, net.conns[n], a, now, room);
    }
  }

  lemma LifeKept(net: Net, m: Move)
    requires LifeOk(net) && IdsOk(net) && Conserved(net.inbox) && NetOk(net)
    requires Allowed(net, m) && Next(net, m).accepts <= ID_COUNT
    ensures LifeOk(Next(net, m))
  {
    hide NetOk, LifeOk, Conserved, IdsOk, Next, Allowed;
    AcceptsGrow(net, m);
    match m {
      case Accept(now, room, late, peer) => AcceptMoveKeepsLife(net, now, room, late, peer);
      case SessionPost(_, _, _) => SessionMoveKeepsLife(net, m);
      case SessionIo(_, _, _, _) => SessionMoveKeepsLife(net, m);
      case _ => OtherMoveKeepsLife(net, m);
    }
  }

  lemma OtherMoveKeepsLife(net: Net, m: Move)
    requires LifeOk(net) && Conserved(net.inbox)
    requires Allowed(net, m) && !m.Accept? && !m.SessionPost? && !m.SessionIo?
    ensures LifeOk(Next(net, m))
  {
    hide Traced, Conserved, Allowed, Next;
    OtherMovesKeepServers(net, m);
    var net' := Next(net, m);
    forall i | 0 <= i < |net'.conns| ensures Traced(net'.inbox.Stream(), net'.conns[i], Lossless(net'.inbox)) {
      TracedAt(net, i);
      TracedIgnoresPosted(net.inbox.Stream(), net.conns[i], net'.conns[i], Lossless(net.inbox));
    }
    forall id: u32 | forall i :: 0 <= i < |net'.conns| ==> net'.conns[i].id != id
      ensures LifeOf(net'.inbox.Stream(), id) == Unseen
    {
      assert forall i :: 0 <= i < |net.conns| ==> net'.conns[i].id == net.conns[i].id;
    }
  }

  lemma InboxKept(net: Net, m: Move)
    requires Conserved(net.inbox) && Allowed(net, m)
    ensures Conserved(Next(net, m).inbox)
  {
    hide Apply, Enabled, Conserved;
    match m {
      case Accept(now, room, late, peer) =>
        StopConserves(net.inbox);
        PushConserves((if late then ShutDown(net) else net).inbox, Connect(net.nextId), room);
      case SessionPost(n, now, room) =>
        SessionPushConserves(net.inbox, net.conns[n].id, net.conns[n].server, PostAction(net.conns[n].posted[0]), now,
            room);
      case SessionIo(n, a, now, room) =>
        SessionPushConserves(net.inbox, net.conns[n].id, net.conns[n].server, a, now, room);
      case GamePoll => PollConserves(net.inbox);
      case GameShutdown => StopConserves(net.inbox);
      case _ => assert Next(net, m).inbox == net.inbox;
    }
  }

  lemma SessionPushConserves(b: Inbox, id: u32, e: Endpoint, a: Action, now: nat, room: bool)
    requires Conserved(b) && Enabled(e, a, now)
    ensures Conserved(PushAll(b, CallbackPackets(id, e, a, now), room))
  {
    hide Apply, Enabled, Conserved, CallbackPackets;
    var ps := CallbackPackets(id, e, a, now);
    if ps != [] {
      PushConserves(b, ps[0], room);
    }
  }

  lemma StopConserves(b: Inbox)
    requires Conserved(b)
    ensures Conserved(Stop(b))
  {
  }

  // ----- Whole runs -----

  lemma {:induction false} StreamAlwaysOk(moves: seq<Move>)
    ensures IdsOk(After(moves)) && Conserved(After(moves).inbox)
    ensures After(moves).accepts <= ID_COUNT ==> LifeOk(After(moves))
  {
    if moves == [] {
      assert EmptyInbox.Stream() == [];
    } else {
      var before, m := After(moves[..|moves| - 1]), moves[|moves| - 1];
      StreamAlwaysOk(moves[..|moves| - 1]);
      NetOkAlways(moves[..|moves| - 1]);
      if Allowed(before, m) {
        StepOk(before, m);
      }
    }
  }

  lemma StepOk(net: Net, m: Move)
    requires NetOk(net) && IdsOk(net) && Conserved(net.inbox) && (net.accepts <= ID_COUNT ==> LifeOk(net))
    requires Allowed(net, m)
    ensures IdsOk(Next(net, m)) && Conserved(Next(net, m).inbox)
    ensures Next(net, m).accepts <= ID_COUNT ==> LifeOk(Next(net, m))
  {
    hide NetOk, IdsOk, Conserved, LifeOk, Allowed;
    IdsKept(net, m);
    InboxKept(net, m);
    AcceptsGrow(net, m);
    if Next(net, m).accepts <= ID_COUNT {
      LifeKept(net, m);
    }
  }

  lemma AcceptsGrow(net: Net, m: Move)
    requires Allowed(net, m)
    ensures net.accepts <= Next(net, m).accepts
  {
    hide Enabled, Apply;
  }

  /**
   * Hand-off conservation, over all interleavings of producers and the polling thread: every packet offered is
   * polled, queued, dropped and counted, or refused by shutdown; and the packets of each session keep their order.
   */
  lemma HandOffConserved(moves: seq<Move>, id: u32)
    ensures var b := After(moves).inbox;
            && |b.offered| == |b.polled| + |b.queue| + b.dropped + b.refused
            && (!b.stopping ==> b.refused == 0)
            && Subsequence(Of(b.polled, id), Of(b.offered, id))
            && (b.dropped + b.refused == 0 ==> b.polled <= b.offered)
  {
    hide After;
    StreamAlwaysOk(moves);
    var b := After(moves).inbox;
    SubsequenceRefl(b.polled);
    SubsequenceOfExtension(b.polled, b.polled, b.Stream());
    SubsequenceTrans(b.polled, b.Stream(), b.offered);
    OfSubsequence(b.polled, b.offered, id);
  }

  /** A life seen in part is a life: prefixes of a proper stream are proper. */
  lemma {:induction false} LifeOfPrefix(ps: seq<Packet>, k: nat, id: u32)
    requires k <= |ps| && !LifeOf(ps, id).Broken? && (LifeOf(ps, id).Gone? ==> LifeOf(ps, id).extra <= 1)
    ensures var l := LifeOf(ps[..k], id); !l.Broken? && (l.Gone? ==> l.extra <= 1)
    decreases |ps|
  {
    if k < |ps| {
      LifeOfPrefix(ps[..|ps| - 1], k, id);
      assert ps[..|ps| - 1][..k] == ps[..k];
    } else {
      assert ps[..k] == ps;
    }
  }

  /** Nothing, or one Connect, then Data packets, then possibly one Disconnect with at most one Data packet after it. */
  ghost predicate ProperLife(f: seq<Packet>) {
    f != [] ==>
      && f[0].Connect?
      && forall k :: 0 < k < |f| ==>
           f[k].Data? || (f[k].Disconnect? && |f| - k <= 2 && forall j :: k < j < |f| ==> f[j].Data?)
  }

  lemma {:induction false} LifeShape(ps: seq<Packet>, id: u32)
    requires var l := LifeOf(ps, id); !l.Broken? && (l.Gone? ==> l.extra <= 1)
    ensures ProperLife(Of(ps, id))
    ensures var l, f := LifeOf(ps, id), Of(ps, id);
            && (l.Unseen? ==> f == [])
            && (l.Alive? ==> f != [] && forall k :: 0 < k < |f| ==> f[k].Data?)
            && (l.Gone? ==> l.extra + 2 <= |f| && f[|f| - 1 - l.extra].Disconnect?
                            && forall k :: 0 < k < |f| && k != |f| - 1 - l.extra ==> f[k].Data?)
  {
    if ps != [] {
      LifeShape(ps[..|ps| - 1], id);
    }
  }

  /**
   * Session lifecycle: while ids are fresh, the polled packets of any id begin with its only Connect, contain at most
   * one Disconnect, and at most one Data packet after it; an id whose Connect was dropped never shows up.
   */
  lemma SessionLifecycle(moves: seq<Move>, id: u32)
    requires After(moves).accepts <= ID_COUNT
    ensures var net := After(moves);
            && ProperLife(Of(net.inbox.polled, id))
            && ((forall i :: 0 <= i < |net.conns| ==> net.conns[i].id != id) ==> Of(net.inbox.Stream(), id) == [])
  {
    hide After, Conserved, IdsOk;
    StreamAlwaysOk(moves);
    var net := After(moves);
    var stream := net.inbox.Stream();
    if i :| 0 <= i < |net.conns| && net.conns[i].id == id {
      TracedAt(net, i);
    }
    assert stream[..|net.inbox.polled|] == net.inbox.polled;
    LifeOfPrefix(stream, |net.inbox.polled|, id);
    LifeShape(net.inbox.polled, id);
    LifeShape(stream, id);
  }

  /**
   * End-to-end FIFO, client to server: the payloads polled under a session's id are an in-order selection from the
   * payloads its client passed to send, and a prefix of them as long as the hand-off queue lost nothing.
   */
  lemma ServerReceivesInOrder(moves: seq<Move>, n: nat)
    requires n < |After(moves).conns| && After(moves).accepts <= ID_COUNT && !After(moves).conns[n].foreign
    ensures var net := After(moves);
            var c := net.conns[n];
            && Subsequence(PayloadsOf(net.inbox.polled, c.id), c.client.issued)
            && (Lossless(net.inbox) ==> PayloadsOf(net.inbox.polled, c.id) <= c.client.issued)
  {
    hide After, Conserved, IdsOk;
    StreamAlwaysOk(moves);
    NetOkAlways(moves);
    var net := After(moves);
    var c := net.conns[n];
    var polled, all := PayloadsOf(net.inbox.polled, c.id), PayloadsOf(net.inbox.Stream(), c.id);
    NetOkAt(net, n);
    TracedAt(net, n);
    BothDirections(c);
    SubsequenceOfExtension(all, DataOf(c.server.inlet.heard), c.client.issued);
    PayloadsConcat(net.inbox.polled, net.inbox.queue, c.id);
    SubsequenceRefl(polled);
    SubsequenceOfExtension(polled, polled, all);
    SubsequenceTrans(polled, all, c.client.issued);
  }

  lemma {:induction false} PayloadsConcat(a: seq<Packet>, b: seq<Packet>, id: u32)
    ensures PayloadsOf(a + b, id) == PayloadsOf(a, id) + PayloadsOf(b, id)
  {
    if b == [] {
      assert a + b == a;
    } else {
      PayloadsConcat(a, b[..|b| - 1], id);
      assert (a + b)[..|a + b| - 1] == a + b[..|b| - 1];
    }
  }

  /** Every stage between the client's send and the game thread's poll is empty, and nothing was lost at the end. */
  predicate QuietUpward(net: Net, n: nat)
    requires n < |net.conns|
  {
    var c := net.conns[n];
    && c.client.posted == [] && c.client.ep.out.queue == []
    && c.server.inlet.incoming == c.client.ep.out.sent
    && c.server.inlet.op.Read? && c.server.inlet.op.want.Head? && c.server.inlet.op.got == []
    && net.inbox.queue == [] && Lossless(net.inbox)
  }

  lemma QuietClient(c: Conn)
    requires ConnOk(c) && !c.client.ep.closed && !c.client.stopping && c.client.posted == []
             && c.client.ep.out.queue == []
    requires c.server.inlet.incoming == c.client.ep.out.sent
    requires c.server.inlet.op.Read? && c.server.inlet.op.want.Head? && c.server.inlet.op.got == []
    ensures DataOf(c.server.inlet.heard) == c.client.issued
  {
    HeardAll(c.server.inlet, c.client.ep.out);
    assert DataOf(c.client.ep.out.Accepted()) + [] == DataOf(c.client.ep.out.Accepted());
  }

  /**
   * Nothing is lost on the way up: once every stage is empty, the game thread has polled all that a running client
   * sent.
   */
  lemma QuietMeansReceived(moves: seq<Move>, n: nat)
    requires n < |After(moves).conns| && After(moves).accepts <= ID_COUNT
    requires var net, c := After(moves), After(moves).conns[n];
             !c.client.ep.closed && !c.client.stopping && QuietUpward(net, n)
    ensures var net, c := After(moves), After(moves).conns[n];
            PayloadsOf(net.inbox.polled, c.id) == c.client.issued
  {
    hide After, ConnOk, Conserved, IdsOk;
    StreamAlwaysOk(moves);
    NetOkAlways(moves);
    var net := After(moves);
    NetOkAt(net, n);
    TracedAt(net, n);
    QuietClient(net.conns[n]);
    assert net.inbox.Stream() == net.inbox.polled;
  }

  /** Without drops, the stream tells exactly which sessions are closed. */
  lemma ClosedIffGone(moves: seq<Move>, n: nat)
    requires n < |After(moves).conns| && After(moves).accepts <= ID_COUNT && Lossless(After(moves).inbox)
    ensures var net := After(moves);
            net.conns[n].server.closed <==> LifeOf(net.inbox.Stream(), net.conns[n].id).Gone?
  {
    hide After, Conserved, IdsOk;
    StreamAlwaysOk(moves);
    TracedAt(After(moves), n);
  }

  // ----- A game thread that sends only to sessions it was told about -----

  /** Every send goes to an id whose Connect was polled before, and nothing is broadcast. */
  ghost predicate Polite(moves: seq<Move>) {
    moves != [] ==>
      var init, last := moves[..|moves| - 1], moves[|moves| - 1];
      Polite(init) && !last.GameBroadcast? && (last.GameSend? ==> Connect(last.id) in After(init).inbox.polled)
  }

  ghost predicate SentAfterJoin(net: Net) {
    forall k :: 0 <= k < |net.issued| ==>
      && net.issued[k].SendOp?
      && exists i :: 0 <= i < |net.conns| && net.conns[i].id == net.issued[k].id && net.conns[i].joinedAt <= k
  }

  lemma {:induction false} ConnectMeansSeen(ps: seq<Packet>, id: u32)
    requires Connect(id) in ps
    ensures LifeOf(ps, id) != Unseen
  {
    var init, last := ps[..|ps| - 1], ps[|ps| - 1];
    if last != Connect(id) {
      assert Connect(id) in init;
      ConnectMeansSeen(init, id);
    }
  }

  lemma NextIssued(net: Net, m: Move)
    requires Allowed(net, m) && !m.GameBroadcast?
    ensures || Next(net, m).issued == net.issued
            || (m.GameSend? && Next(net, m).issued == net.issued + [SendOp(m.id, m.payload)])
  {
    hide Enabled, Apply;
  }

  /** A session whose Connect was polled has joined before any call issued from now on. */
  lemma PolledMeansJoined(net: Net, id: u32)
    requires NetOk(net) && LifeOk(net) && Connect(id) in net.inbox.polled
    ensures exists i :: 0 <= i < |net.conns| && net.conns[i].id == id && net.conns[i].joinedAt <= |net.issued|
  {
    hide ConnOk, Traced;
    ConnectMeansSeen(net.inbox.Stream(), id);
    var i :| 0 <= i < |net.conns| && net.conns[i].id == id;
    NetOkAt(net, i);
  }

  lemma SentAfterJoinKept(net: Net, m: Move)
    requires SentAfterJoin(net) && Allowed(net, m) && NetOk(net) && LifeOk(net) && !m.GameBroadcast?
    requires m.GameSend? ==> Connect(m.id) in net.inbox.polled
    ensures SentAfterJoin(Next(net, m))
  {
    hide Allowed, Next, NetOk, LifeOk;
    NextKeepsConns(net, m);
    NextIssued(net, m);
    var net' := Next(net, m);
    if m.GameSend? {
      PolledMeansJoined(net, m.id);
    }
    forall k | 0 <= k < |net'.issued|
      ensures net'.issued[k].SendOp?
      ensures exists i :: 0 <= i < |net'.conns| && net'.conns[i].id == net'.issued[k].id && net'.conns[i].joinedAt <= k
    {
      if k < |net.issued| {
        var i :| 0 <= i < |net.conns| && net.conns[i].id == net.issued[k].id && net.conns[i].joinedAt <= k;
        assert net'.conns[i].joinedAt <= k;
      } else {
        var i :| 0 <= i < |net.conns| && net.conns[i].id == m.id && net.conns[i].joinedAt <= |net.issued|;
        assert net'.conns[i].joinedAt <= k;
      }
    }
  }

  lemma {:induction false} SentAfterJoinAlways(moves: seq<Move>)
    requires Polite(moves) && After(moves).accepts <= ID_COUNT
    ensures SentAfterJoin(After(moves))
  {
    if moves != [] {
      var init, m := moves[..|moves| - 1], moves[|moves| - 1];
      var before := After(init);
      if Allowed(before, m) {
        AcceptsGrow(before, m);
        SentAfterJoinAlways(init);
        StreamAlwaysOk(init);
        NetOkAlways(init);
        SentAfterJoinKept(before, m);
      } else {
        SentAfterJoinAlways(init);
      }
    }
  }

  lemma {:induction false} NothingForOthers(id: u32, ops: seq<Op>)
    requires forall k :: 0 <= k < |ops| ==> ops[k].SendOp? && ops[k].id != id
    ensures For(id, ops) == []
  {
    if ops != [] {
      NothingForOthers(id, ops[..|ops| - 1]);
    }
  }

  lemma NothingSentEarly(net: Net, n: nat)
    requires SentAfterJoin(net) && IdsOk(net) && net.accepts <= ID_COUNT
    requires n < |net.conns| && net.conns[n].joinedAt <= |net.issued|
    ensures For(net.conns[n].id, net.issued) == For(net.conns[n].id, net.issued[net.conns[n].joinedAt..])
  {
    var c := net.conns[n];
    var early, late := net.issued[..c.joinedAt], net.issued[c.joinedAt..];
    forall k | 0 <= k < |early| ensures early[k].SendOp? && early[k].id != c.id {
      assert early[k] == net.issued[k];
      var i :| 0 <= i < |net.conns| && net.conns[i].id == net.issued[k].id && net.conns[i].joinedAt <= k;
      if i != n {
        DistinctIds(net, i, n);
      }
    }
    NothingForOthers(c.id, early);
    assert net.issued == early + late;
    ForConcat(c.id, early, late);
    assert [] + For(c.id, late) == For(c.id, late);
  }

  /**
   * End-to-end FIFO for a polite game thread: what a client has polled is an in-order selection of all payloads ever
   * passed to send for its session, and a prefix of them while its receive queue dropped nothing.
   */
  lemma PoliteSendsArriveInOrder(moves: seq<Move>, n: nat)
    requires Polite(moves) && After(moves).accepts <= ID_COUNT && n < |After(moves).conns|
    ensures var net := After(moves);
            var c := net.conns[n];
            && Subsequence(c.client.polled, For(c.id, net.issued))
            && (c.client.dropped == 0 ==> c.client.polled <= For(c.id, net.issued))
  {
    hide After, Polite, LifeOk, Conserved, SentAfterJoin, IdsOk, Subsequence, For;
    ClientsReceiveInOrder(moves, n);
    SentAfterJoinAlways(moves);
    StreamAlwaysOk(moves);
    NothingSentEarly(After(moves), n);
  }
}
