/** Exactly which steps close an end, what a close does, and what counts as activity. */
module Closing {
  import opened Bytes
  import opened Codec
  import opened Endpoint
  import opened Drain
  import opened PacketQueue
  import opened Network
  import opened Delivery

  /** Eight bytes that the header writer could have written for a legal frame. */
  ghost predicate WrittenHeader(s: Bytes) {
    exists flags: byte, size: u32 :: LegalPair(flags, size) && s == HeaderBytes(flags, size)
  }

  /**
   * The steps that close an open end: a close asked for, a failed or stopped handler, a header nobody writes, an idle
   * timeout, and a frame for a full queue.
   */
  ghost predicate Closes(e: Endpoint, a: Action, now: nat, stop: bool) {
    match a
    case CloseNow => true
    case ForceCloseNow => true
    case OnHeader(ok) => !ok || stop || (e.inlet.op.Read? && !WrittenHeader(e.inlet.op.got))
    case OnBody(ok, _) => !ok || stop
    case OnWritten(ok) => !ok || stop
    case OnTimer(ok) => ok && (now - e.lastActivity >= 15000 || (!stop && |e.out.queue| >= 1024))
    case PushFrame(_) => !stop && |e.out.queue| >= 1024
    case DoTransmit(_) => false
    case DoTake(_) => false
  }

  lemma ReadIsHeader(i: Inlet)
    requires Reader(i) && CanFinishRead(i, Head, true)
    ensures |i.op.got| == HEADER_SIZE
    ensures DecodeHeader(i.op.got).Ok? <==> WrittenHeader(i.op.got)
  {
    DecodeAcceptsExactlyWrittenHeaders(i.op.got);
  }

  /**
   * An open end closes in exactly these steps. The close cancels the wait of the timer; only a tick that finds the
   * queue full arms it once more.
   */
  lemma ClosesExactly(e: Endpoint, a: Action, now: nat, stop: bool)
    requires !e.closed && Enabled(e, a, now) && Reader(e.inlet)
    ensures var e' := Apply(e, a, now, stop);
            && (e'.closed <==> Closes(e, a, now, stop))
            && (e'.closed && !a.OnTimer? && e.timer.Timer? ==> e'.timer.Timer? && e'.timer.cancelled.Some?)
            && (e'.closed && a.OnTimer? && now - e.lastActivity >= 15000 ==> e'.timer.NoTimer?)
  {
    hide DecodeHeader, WrittenHeader;
    if a == OnHeader(true) {
      ReadIsHeader(e.inlet);
    }
  }

  // ----- Activity -----

  /** A step that counts as activity: a header read in full that the writer could have written. */
  ghost predicate Hears(e: Endpoint, a: Action, stop: bool) {
    a == OnHeader(true) && !stop && e.inlet.op.Read? && WrittenHeader(e.inlet.op.got)
  }

  /** The idle clock is stamped by such headers, and by nothing else. */
  lemma ActivityExactly(e: Endpoint, a: Action, now: nat, stop: bool)
    requires Enabled(e, a, now) && Reader(e.inlet)
    ensures Apply(e, a, now, stop).lastActivity == if Hears(e, a, stop) then now else e.lastActivity
    ensures Apply(e, a, now, stop).clock == now
  {
    hide DecodeHeader, WrittenHeader;
    if a == OnHeader(true) {
      ReadIsHeader(e.inlet);
    }
  }

  /** When a valid header was last read in a run, or `stamp` if none was. */
  ghost function LastHeard(e: Endpoint, steps: seq<Step>, stamp: nat): nat
    requires CanRun(e, steps)
    decreases |steps|
  {
    if steps == [] then stamp
    else
      var s := steps[0];
      LastHeard(Apply(e, s.action, s.now, s.stop), steps[1..], if Hears(e, s.action, s.stop) then s.now else stamp)
  }

  /** Over runs, the idle clock shows when a valid header was last read. */
  lemma {:induction false} ActivityIsLastHeard(e: Endpoint, steps: seq<Step>)
    requires CanRun(e, steps) && Reader(e.inlet)
    ensures Run(e, steps).lastActivity == LastHeard(e, steps, e.lastActivity)
    decreases |steps|
  {
    hide Apply, Hears;
    if steps != [] {
      var s := steps[0];
      ActivityExactly(e, s.action, s.now, s.stop);
      ReaderKept(e, s.action, s.now, s.stop);
      ActivityIsLastHeard(Apply(e, s.action, s.now, s.stop), steps[1..]);
    }
  }

  // ----- What others learn of a close -----

  /** A step of a session's strand: a closure posted to it, or a completion handler. */
  predicate StrandStepOf(net: Net, m: Move, n: nat, a: Action, now: nat) {
    && n < |net.conns| && Allowed(net, m)
    && match m
       case SessionPost(k, t, _) => k == n && t == now && a == PostAction(net.conns[n].posted[0])
       case SessionIo(k, b, t, _) => k == n && t == now && a == b
       case _ => false
  }

  /** The payload a complete body read hands on. */
  function BodyRead(e: Endpoint, a: Action): seq<Bytes> {
    if a.OnBody? && a.ok && e.inlet.op.Read? then [e.inlet.op.got] else []
  }

  lemma CallbacksOf(id: u32, e: Endpoint, a: Action, now: nat)
    requires Enabled(e, a, now) && Reader(e.inlet) && !(a.OnBody? && a.late)
    ensures CallbackPackets(id, e, a, now)
            == if BodyRead(e, a) != [] then [Data(id, BodyRead(e, a)[0])]
               else if !e.closed && Closes(e, a, now, false) then [Disconnect(id)]
               else []
    ensures Apply(e, a, now, false).closed <==> e.closed || Closes(e, a, now, false)
  {
    hide Apply;
    if !e.closed {
      ClosesExactly(e, a, now, false);
    } else {
      ClockedStays(e, a, now);
    }
  }

  lemma ClockedStays(e: Endpoint, a: Action, now: nat)
    requires Enabled(e, a, now) && e.closed
    ensures Apply(e, a, now, false).closed
  {
  }

  /**
   * What a step of a session tells the server: an open session that closes offers its Disconnect to the hand-off queue
   * and posts its erasure, once; a complete body is offered as Data; nothing else is offered or posted.
   */
  ghost predicate Told(net: Net, net': Net, n: nat, a: Action, now: nat) {
    && n < |net.conns| && n < |net'.conns|
    && var c := net.conns[n];
       var closes := !c.server.closed && Closes(c.server, a, now, false);
       && (net'.conns[n].server.closed <==> c.server.closed || closes)
       && net'.tasks == net.tasks + (if closes then [EraseTask(c.id)] else [])
       && net'.inbox.offered == net.inbox.offered
                                + (if closes then [Disconnect(c.id)] else [])
                                + (if BodyRead(c.server, a) != [] then [Data(c.id, BodyRead(c.server, a)[0])] else [])
  }

  lemma StepTells(net: Net, m: Move, n: nat, a: Action, now: nat)
    requires StrandStepOf(net, m, n, a, now) && Reader(net.conns[n].server.inlet)
    ensures Told(net, Next(net, m), n, a, now)
  {
    hide Apply, Enabled, Closes, CallbackPackets, Push, PushAll, BodyRead, Reader, Delivered;
    var c := net.conns[n];
    CallbacksOf(c.id, c.server, a, now);
    BodiesDoNotClose(c.server, a, now);
    PushOffers(net.inbox, CallbackPackets(c.id, c.server, a, now), m.room);
  }

  lemma PushOffers(b: Inbox, ps: seq<Packet>, room: bool)
    requires |ps| <= 1
    ensures PushAll(b, ps, room).offered == b.offered + ps
  {
  }

  lemma BodiesDoNotClose(e: Endpoint, a: Action, now: nat)
    ensures BodyRead(e, a) != [] ==> !Closes(e, a, now, false)
  {
  }

  /** Over all runs, whatever the peers sent. */
  lemma SessionStepIsTold(moves: seq<Move>, m: Move, n: nat, a: Action, now: nat)
    requires StrandStepOf(After(moves), m, n, a, now)
    ensures Told(After(moves), After(moves + [m]), n, a, now)
  {
    hide After, Told;
    NetOkAlways(moves);
    NetOkAt(After(moves), n);
    OneMoveMore(moves, m);
    StepTells(After(moves), m, n, a, now);
  }

  // ----- What a client does with a body -----

  /**
   * A complete body read by a running client is queued while fewer than 4096 wait and the queue takes it, else counted.
   */
  lemma ClientBodyExactly(c: Client, now: nat, room: bool)
    requires Enabled(c.ep, OnBody(true, false), now) && !c.stopping
    ensures var c' := StepClient(c, OnBody(true, false), now, room);
            && c'.polled == c.polled && c'.posted == c.posted && c'.issued == c.issued && !c'.stopping
            && (if room && |c.received| < 4096 then
                  c'.received == c.received + [c.ep.inlet.op.got] && c'.dropped == c.dropped
                else c'.received == c.received && c'.dropped == c.dropped + 1)
  {
    hide Apply;
  }
}
