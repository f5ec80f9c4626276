/** What a client's send does: exactly which payloads it takes, and that each of them can reach the game thread. */
module Upward {
  import opened Bytes
  import opened Codec
  import opened Stream
  import opened Endpoint
  import opened PacketQueue
  import opened Network
  import opened Channel
  import opened Delivery
  import opened Lifecycle
  import opened FrameAccounts
  import opened LastWords

  // ----- What is taken -----

  /** The calls of send that a client takes: a payload of legal size, while it is connected and not shutting down. */
  predicate Takes(net: Net, n: nat, payload: Bytes) {
    HasClient(net, n) && 1 <= |payload| <= 2048 && !net.conns[n].client.ep.closed && !net.conns[n].client.stopping
  }

  /** The payloads of the sends of the n-th connection's client that were taken, in order. */
  ghost function SentBy(moves: seq<Move>, n: nat): seq<Bytes> {
    if moves == [] then []
    else
      var init, m := moves[..|moves| - 1], moves[|moves| - 1];
      SentBy(init, n) + if m.ClientSend? && m.n == n && Takes(After(init), n, m.payload) then [m.payload] else []
  }

  /** A send that is taken posts one frame, header and payload; one that is not changes nothing. */
  lemma SendExactly(net: Net, n: nat, payload: Bytes)
    requires HasClient(net, n)
    ensures var net' := Next(net, ClientSend(n, payload));
            var c, taken := net.conns[n].client, Takes(net, n, payload);
            && HasClient(net', n)
            && net'.conns[n].client.posted
               == c.posted + (if taken then [HeaderBytes(0, |payload|) + payload] else [])
            && net'.conns[n].client.issued == c.issued + (if taken then [payload] else [])
            && net' == WithClient(net, n, net'.conns[n].client)
            && net'.conns[n].client == c.(posted := net'.conns[n].client.posted, issued := net'.conns[n].client.issued)
  {
    hide HeaderBytes;
    var c := net.conns[n].client;
    assert c.posted + [] == c.posted && c.issued + [] == c.issued;
    assert net.conns[n := net.conns[n].(client := c)] == net.conns;
  }

  lemma OthersIssueNothing(net: Net, m: Move, n: nat)
    requires Allowed(net, m) && n < |Next(net, m).conns| && !(m.ClientSend? && m.n == n)
    ensures Next(net, m).conns[n].client.issued == if n < |net.conns| then net.conns[n].client.issued else []
  {
    hide Apply, Enabled, StepSession, StepTask, StepAccept;
    if ClientMove(m, n) {
      assert n < |net.conns|;
    } else {
      hide Next;
      OthersKeepClient(net, m, n);
      if n >= |net.conns| {
        NewcomersIssuedNothing(net, m, n);
      }
    }
  }

  lemma NewcomersIssuedNothing(net: Net, m: Move, n: nat)
    requires Allowed(net, m) && |net.conns| <= n < |Next(net, m).conns|
    ensures Next(net, m).conns[n].client.issued == []
  {
    hide Apply, Enabled, PushAll, CallbackPackets;
  }

  /** In every run a client's issued payloads are those of the sends it took. */
  lemma {:induction false} IssuedExactly(moves: seq<Move>, n: nat)
    ensures SentBy(moves, n) == if n < |After(moves).conns| then After(moves).conns[n].client.issued else []
  {
    hide Next, Allowed;
    if moves != [] {
      var init, m := moves[..|moves| - 1], moves[|moves| - 1];
      IssuedExactly(init, n);
      if Allowed(After(init), m) {
        NextKeepsConns(After(init), m);
        if m.ClientSend? && m.n == n {
          ClientAllowed(After(init), m);
          SendExactly(After(init), n, m.payload);
        } else if n < |After(moves).conns| {
          OthersIssueNothing(After(init), m, n);
        }
      } else if m.ClientSend? {
        ClientAllowed(After(init), m);
      }
    }
  }

  lemma ClientAllowed(net: Net, m: Move)
    requires m.ClientSend?
    ensures Allowed(net, m) <==> HasClient(net, m.n)
  {
  }

  // ----- The client's side of the way -----

  /** Both ends are open and nobody is shutting down. */
  ghost predicate Speaking(net: Net, n: nat) {
    && HasClient(net, n) && !net.inbox.stopping
    && var c := net.conns[n]; !c.client.ep.closed && !c.client.stopping && !c.server.closed
  }

  /** The frame being written is written to its end, and its handler runs. */
  lemma WriteFront(moves: seq<Move>, n: nat) returns (more: seq<Move>)
    requires Speaking(After(moves), n) && ConnOk(After(moves).conns[n])
             && After(moves).conns[n].client.ep.out.queue != []
    ensures var net, net' := After(moves), After(moves + more);
            && OnlyClientMoved(net, net', n) && Speaking(net', n)
            && var c, c' := net.conns[n].client, net'.conns[n].client;
               c'.ep.out.queue == c.ep.out.queue[1..] && c'.posted == c.posted && c'.issued == c.issued
    ensures After(moves + more).inbox == After(moves).inbox
  {
    hide After, ConnOk;
    WritePending(After(moves).conns[n]);
    var e := After(moves).conns[n].client.ep;
    var m := ClientIo(n, DoTransmit(|e.out.queue[0]| - e.out.op.done), e.clock, true);
    OneMoveMore(moves, m);
    var m' := ClientIo(n, OnWritten(true), e.clock, true);
    OneMoveMore(moves + [m], m');
    more := [m, m'];
    assert moves + more == (moves + [m]) + [m'];
  }

  lemma WritePending(c: Conn)
    requires ConnOk(c) && !c.client.ep.closed && c.client.ep.out.queue != []
    ensures var o := c.client.ep.out; o.op.Write? && !o.op.doomed && o.op.done <= |o.queue[0]|
  {
  }

  lemma {:induction false} FlushQueue(moves: seq<Move>, n: nat) returns (more: seq<Move>)
    requires Speaking(After(moves), n)
    ensures var net, net' := After(moves), After(moves + more);
            && OnlyClientMoved(net, net', n) && Speaking(net', n)
            && var c, c' := net.conns[n].client, net'.conns[n].client;
               c'.ep.out.queue == [] && c'.posted == c.posted && c'.issued == c.issued
    ensures After(moves + more).inbox == After(moves).inbox
    decreases |After(moves).conns[n].client.ep.out.queue|
  {
    hide After, ConnOk;
    if After(moves).conns[n].client.ep.out.queue == [] {
      more := [];
      assert moves + [] == moves;
    } else {
      NetOkAlways(moves);
      NetOkAt(After(moves), n);
      var one := WriteFront(moves, n);
      var rest := FlushQueue(moves + one, n);
      more := one + rest;
      assert moves + more == (moves + one) + rest;
    }
  }

  lemma PostedIsLegal(c: Conn)
    requires ConnOk(c) && c.client.posted != []
    ensures Legal(c.client.posted[0])
  {
    assert c.client.posted[0] in c.client.posted;
  }

  /** Every posted frame is queued and written. */
  lemma {:induction false} HandOver(moves: seq<Move>, n: nat) returns (more: seq<Move>)
    requires Speaking(After(moves), n)
    ensures var net, net' := After(moves), After(moves + more);
            && OnlyClientMoved(net, net', n) && Speaking(net', n)
            && var c, c' := net.conns[n].client, net'.conns[n].client;
               c'.ep.out.queue == [] && c'.posted == [] && c'.issued == c.issued
    ensures After(moves + more).inbox == After(moves).inbox
    decreases |After(moves).conns[n].client.posted|
  {
    hide After, ConnOk, Legal;
    var flush := FlushQueue(moves, n);
    var flushed := moves + flush;
    if After(flushed).conns[n].client.posted == [] {
      more := flush;
    } else {
      NetOkAlways(flushed);
      NetOkAt(After(flushed), n);
      PostedIsLegal(After(flushed).conns[n]);
      var m := ClientPost(n, After(flushed).conns[n].client.ep.clock);
      OneMoveMore(flushed, m);
      var rest := HandOver(flushed + [m], n);
      more := flush + [m] + rest;
      assert moves + more == (flushed + [m]) + rest;
    }
  }

  /** Then everything the client issued is on the wire. */
  lemma AllOnTheWire(c: Conn)
    requires ConnOk(c) && !c.client.ep.closed && !c.client.stopping && c.client.ep.out.queue == []
             && c.client.posted == []
    ensures DataOf(Parse(c.client.ep.out.sent).frames) == c.client.issued
  {
    var o := c.client.ep.out;
    assert o.popped + [] == o.popped;
    RoundTrip(o.popped);
    assert DataOf(o.Accepted()) + [] == DataOf(o.Accepted());
  }

  // ----- The session's side of the way -----

  lemma SessionReads(net: Net, m: Move, i: nat)
    requires Allowed(net, m) && i < |Next(net, m).conns|
    requires i < |net.conns| ==> Reads(net.conns[i].server, false)
    ensures Reads(Next(net, m).conns[i].server, false)
  {
    hide Apply, Enabled, StepTask, StepAccept, StepClient, PushAll, CallbackPackets, Reads;
    if i >= |net.conns| {
      NewcomersRead(net, m, i);
    } else {
      match m {
        case RunTask => TaskPosts(net, i);
        case SessionPost(k, now, _) =>
          if k == i {
            ReadsKept(net.conns[i].server, PostAction(net.conns[i].posted[0]), now, false);
          }
        case SessionIo(k, a, now, _) =>
          if k == i {
            ReadsKept(net.conns[i].server, a, now, false);
          }
        case _ => OtherAccounts(net, m, i);
      }
    }
  }

  lemma NewcomersRead(net: Net, m: Move, i: nat)
    requires Allowed(net, m) && |net.conns| <= i < |Next(net, m).conns|
    ensures Reads(Next(net, m).conns[i].server, false)
  {
    hide Apply, Enabled, PushAll, CallbackPackets;
  }

  /** An open session always has a read pending. */
  lemma {:induction false} SessionsAlwaysRead(moves: seq<Move>, i: nat)
    requires i < |After(moves).conns|
    ensures Reads(After(moves).conns[i].server, false)
  {
    hide Next, Allowed, Reads;
    if moves != [] {
      var init, m := moves[..|moves| - 1], moves[|moves| - 1];
      if i < |After(init).conns| {
        SessionsAlwaysRead(init, i);
      }
      if Allowed(After(init), m) {
        SessionReads(After(init), m, i);
      }
    }
  }

  /** The session is open, the hand-off queue empty, and the game thread has polled these payloads of it. */
  ghost predicate Hearing(net: Net, n: nat, payloads: seq<Bytes>) {
    && Speaking(net, n) && net.inbox.queue == [] && PayloadsOf(net.inbox.polled, net.conns[n].id) == payloads
  }

  ghost predicate OnlySessionMoved(net: Net, net': Net, n: nat)
    requires n < |net.conns|
  {
    n < |net'.conns| && net'.conns[n] == net.conns[n].(server := net'.conns[n].server)
  }

  ghost function Waiting(net: Net, n: nat): int
    requires n < |net.conns|
  {
    |net.conns[n].client.ep.out.sent| - |net.conns[n].server.inlet.incoming|
  }

  ghost predicate Whole(net: Net, n: nat)
    requires n < |net.conns|
  {
    var op := net.conns[n].server.inlet.op; op.Read? && |op.got| == op.need
  }

  lemma SessionBytes(c: Conn)
    requires ConnOk(c) && !c.foreign
    ensures c.server.inlet.incoming <= c.client.ep.out.sent && Reader(c.server.inlet)
    ensures c.server.inlet.op.Read? ==> |c.server.inlet.op.got| <= c.server.inlet.op.need
  {
  }

  /** The session's pending read takes the next `k` bytes. */
  lemma SessionTakes(moves: seq<Move>, n: nat, k: nat, payloads: seq<Bytes>) returns (m: Move)
    requires Hearing(After(moves), n, payloads) && k <= Waiting(After(moves), n) && ConnOk(After(moves).conns[n])
    requires var i := After(moves).conns[n].server.inlet; i.op.Read? && !i.op.doomed && |i.op.got| + k <= i.op.need
    ensures var net, net' := After(moves), After(moves + [m]);
            && OnlySessionMoved(net, net', n) && Hearing(net', n, payloads) && Waiting(net', n) == Waiting(net, n) - k
            && var i, i' := net.conns[n].server.inlet, net'.conns[n].server.inlet;
               && i'.op.Read? && i'.op.want == i.op.want && i'.op.need == i.op.need && !i'.op.doomed
               && |i'.op.got| == |i.op.got| + k && i'.heard == i.heard
  {
    hide After, ConnOk, PayloadsOf;
    SessionBytes(After(moves).conns[n]);
    var c := After(moves).conns[n];
    var i, sent := c.server.inlet, c.client.ep.out.sent;
    var chunk := sent[|i.incoming|..|i.incoming| + k];
    assert i.incoming + chunk == sent[..|i.incoming| + k];
    m := SessionIo(n, DoTake(chunk), c.server.clock, true);
    OneMoveMore(moves, m);
  }

  lemma SessionHeaderFacts(c: Conn)
    requires ConnOk(c) && !c.foreign && c.server.inlet.op.Read?
    requires CanFinishRead(c.server.inlet, c.server.inlet.op.want, true)
    ensures var op := c.server.inlet.op;
            op.want.Head? ==>
              && |op.got| == HEADER_SIZE && DecodeHeader(op.got).Ok?
              && (!DecodeHeader(op.got).header.IsKeepalive() ==> 0 < DecodeHeader(op.got).header.payloadSize)
  {
    if c.server.inlet.op.want.Head? {
      HonestHeadersAreAccepted(c.server.inlet, c.client.ep.out, c.client.ep.closed);
    }
  }

  /** A complete header is read; what follows is the next header or a body. */
  lemma SessionReadsHeader(moves: seq<Move>, n: nat, payloads: seq<Bytes>) returns (more: seq<Move>)
    requires Hearing(After(moves), n, payloads) && ConnOk(After(moves).conns[n])
    requires var i := After(moves).conns[n].server.inlet;
             i.op.Read? && i.op.want.Head? && !i.op.doomed && |i.op.got| == i.op.need
    ensures var net, net' := After(moves), After(moves + more);
            && OnlySessionMoved(net, net', n) && Hearing(net', n, payloads) && Waiting(net', n) == Waiting(net, n)
            && DataOf(net'.conns[n].server.inlet.heard) == DataOf(net.conns[n].server.inlet.heard)
            && !Whole(net', n)
  {
    hide After, ConnOk, DecodeHeader, PayloadsOf, Reader, DataOf;
    var c := After(moves).conns[n];
    SessionHeaderFacts(c);
    SessionBytes(c);
    var m := SessionIo(n, OnHeader(true), c.server.clock, true);
    OneMoveMore(moves, m);
    HeardDelivers(c.server, OnHeader(true), c.server.clock, false);
    assert DataOf(c.server.inlet.heard) + [] == DataOf(c.server.inlet.heard);
    more := [m];
  }

  /** A complete body is offered, taken by the empty hand-off queue, and polled. */
  lemma SessionReadsBody(moves: seq<Move>, n: nat, payloads: seq<Bytes>) returns (more: seq<Move>, payload: Bytes)
    requires Hearing(After(moves), n, payloads) && ConnOk(After(moves).conns[n])
    requires var i := After(moves).conns[n].server.inlet;
             i.op.Read? && i.op.want.Body? && !i.op.doomed && |i.op.got| == i.op.need
    ensures var net, net' := After(moves), After(moves + more);
            && OnlySessionMoved(net, net', n) && Hearing(net', n, payloads + [payload])
            && Waiting(net', n) == Waiting(net, n)
            && DataOf(net'.conns[n].server.inlet.heard) == DataOf(net.conns[n].server.inlet.heard) + [payload]
            && !Whole(net', n)
  {
    hide After, ConnOk, PayloadsOf, Reader, DataOf;
    var c := After(moves).conns[n];
    SessionBytes(c);
    payload := c.server.inlet.op.got;
    var m := SessionIo(n, OnBody(true, false), c.server.clock, true);
    OneMoveMore(moves, m);
    OneMoveMore(moves + [m], GamePoll);
    HeardDelivers(c.server, OnBody(true, false), c.server.clock, false);
    OnePacketMore(After(moves).inbox.polled, Data(c.id, payload), c.id);
    more := [m, GamePoll];
    assert moves + more == (moves + [m]) + [GamePoll];
  }

  lemma AllIsHeardBySession(c: Conn)
    requires ConnOk(c) && !c.foreign && c.server.inlet.op.Read? && |c.server.inlet.op.got| < c.server.inlet.op.need
    requires |c.server.inlet.incoming| == |c.client.ep.out.sent|
    ensures c.server.inlet.heard == Parse(c.client.ep.out.sent).frames
  {
    SessionBytes(c);
    assert c.server.inlet.incoming == c.client.ep.out.sent;
    ReaderRefinesParse(c.server.inlet);
  }

  /** The pending read takes what it needs, or all there is; and if it is complete, its handler runs. */
  lemma OneSessionRead(moves: seq<Move>, n: nat, payloads: seq<Bytes>) returns (more: seq<Move>, got: seq<Bytes>,
      done: bool)
    requires Hearing(After(moves), n, payloads)
    ensures var net, net' := After(moves), After(moves + more);
            && OnlySessionMoved(net, net', n) && Hearing(net', n, payloads + got)
            && DataOf(net'.conns[n].server.inlet.heard) == DataOf(net.conns[n].server.inlet.heard) + got
            && if done then net'.conns[n].server.inlet.heard == Parse(net.conns[n].client.ep.out.sent).frames
               else
                 && 0 <= Waiting(net', n) <= Waiting(net, n) && !Whole(net', n)
                 && (Waiting(net', n) == Waiting(net, n) ==> Whole(net, n))
  {
    hide After, ConnOk, Parse, DataOf, PayloadsOf, NetOk;
    SessionsAlwaysRead(moves, n);
    NetOkAlways(moves);
    NetOkAt(After(moves), n);
    SessionBytes(After(moves).conns[n]);
    var i, waiting := After(moves).conns[n].server.inlet, Waiting(After(moves), n);
    var wanted := i.op.need - |i.op.got|;
    var k := if wanted <= waiting then wanted else waiting;
    var m := SessionTakes(moves, n, k, payloads);
    NetOkAlways(moves + [m]);
    NetOkAt(After(moves + [m]), n);
    done := k < wanted;
    got := [];
    assert payloads + [] == payloads && DataOf(i.heard) + [] == DataOf(i.heard);
    if done {
      more := [m];
      AllIsHeardBySession(After(moves + [m]).conns[n]);
    } else {
      var finish;
      if i.op.want.Head? {
        finish := SessionReadsHeader(moves + [m], n, payloads);
      } else {
        var payload;
        finish, payload := SessionReadsBody(moves + [m], n, payloads);
        got := [payload];
      }
      more := [m] + finish;
      assert moves + more == (moves + [m]) + finish;
    }
  }

  /** The session reads on until every complete frame on the wire is read; the game thread polls every payload. */
  lemma {:induction false} SessionReadsOn(moves: seq<Move>, n: nat, payloads: seq<Bytes>)
    returns (more: seq<Move>, got: seq<Bytes>)
    requires Hearing(After(moves), n, payloads)
    ensures var net, net' := After(moves), After(moves + more);
            && OnlySessionMoved(net, net', n) && Hearing(net', n, payloads + got)
            && DataOf(net'.conns[n].server.inlet.heard) == DataOf(net.conns[n].server.inlet.heard) + got
            && net'.conns[n].server.inlet.heard == Parse(net.conns[n].client.ep.out.sent).frames
    decreases if Waiting(After(moves), n) < 0 then 0 else Waiting(After(moves), n), Whole(After(moves), n)
  {
    hide After, Parse, Whole, DataOf, PayloadsOf;
    var one, first, done := OneSessionRead(moves, n, payloads);
    if done {
      more, got := one, first;
    } else {
      var rest, others := SessionReadsOn(moves + one, n, payloads + first);
      more, got := one + rest, first + others;
      assert moves + more == (moves + one) + rest;
      assert payloads + got == (payloads + first) + others;
      var heard := DataOf(After(moves).conns[n].server.inlet.heard);
      assert heard + got == (heard + first) + others;
    }
  }

  // ----- All the way -----

  lemma {:induction false} PollInbox(moves: seq<Move>) returns (more: seq<Move>)
    ensures After(moves + more).conns == After(moves).conns && After(moves + more).inbox.queue == []
    ensures After(moves + more).inbox.stopping == After(moves).inbox.stopping
    decreases |After(moves).inbox.queue|
  {
    hide After;
    if After(moves).inbox.queue == [] {
      more := [];
      assert moves + [] == moves;
    } else {
      OneMoveMore(moves, GamePoll);
      var rest := PollInbox(moves + [GamePoll]);
      more := [GamePoll] + rest;
      assert moves + more == (moves + [GamePoll]) + rest;
    }
  }

  lemma {:induction false} PayloadWasPolled(ps: seq<Packet>, id: u32, payload: Bytes)
    requires payload in PayloadsOf(ps, id)
    ensures Data(id, payload) in ps
  {
    var init, last := ps[..|ps| - 1], ps[|ps| - 1];
    if !(last == Data(id, payload)) {
      assert payload in PayloadsOf(init, id);
      PayloadWasPolled(init, id, payload);
    }
  }

  /** What the session has heard so far is older than a payload sent now. */
  lemma NotYetHeard(c: Conn, all: seq<Bytes>, got: seq<Bytes>, payload: Bytes)
    requires ConnOk(c) && !c.foreign && all == c.client.issued + [payload] && all == DataOf(c.server.inlet.heard) + got
    ensures payload in got
  {
    BothDirections(c);
    assert |DataOf(c.server.inlet.heard)| <= |c.client.issued|;
    assert got[|got| - 1] == all[|all| - 1] == payload;
  }

  /**
   * A payload that a client's send takes can reach the game thread: as long as the session is open too and the server
   * runs, some continuation of the run polls it as Data of that session.
   */
  lemma SendCanArrive(moves: seq<Move>, n: nat, payload: Bytes)
    requires Takes(After(moves), n, payload) && Speaking(After(moves), n)
    ensures exists more :: Data(After(moves).conns[n].id, payload)
                           in After(moves + [ClientSend(n, payload)] + more).inbox.polled
  {
    hide After, ConnOk, Parse, DataOf, PayloadsOf, DataFrame;
    var c := After(moves).conns[n];
    NetOkAlways(moves);
    NetOkAt(After(moves), n);
    var sent := moves + [ClientSend(n, payload)];
    OneMoveMore(moves, ClientSend(n, payload));
    SendExactly(After(moves), n, payload);
    var polls := PollInbox(sent);
    var over := HandOver(sent + polls, n);
    var handed := sent + polls + over;
    NetOkAlways(handed);
    NetOkAt(After(handed), n);
    AllOnTheWire(After(handed).conns[n]);
    var before := PayloadsOf(After(handed).inbox.polled, c.id);
    var reading, got := SessionReadsOn(handed, n, before);
    NotYetHeard(c, c.client.issued + [payload], got, payload);
    assert payload in before + got;
    PayloadWasPolled(After(handed + reading).inbox.polled, c.id, payload);
    var more := polls + over + reading;
    assert sent + more == handed + reading;
  }
}
