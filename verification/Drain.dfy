/** After the close flag is set, the three handler chains of an endpoint run dry. */
module Drain {
  import opened Bytes
  import opened Codec
  import opened Endpoint

  /** Read handlers still to come; a header completed before the close may also reset the idle clock. */
  function ReadWork(op: ReadOp): nat {
    if op.NoRead? then 0 else if op.doomed then 1 else 6
  }

  function WriteWork(op: WriteOp): nat {
    if op.NoWrite? then 0 else if op.doomed then 1 else 2
  }

  /**
   * Timer handlers still to come: one per interval until the idle timeout is reached, and the one that finds it
   * reached.
   */
  function TimerWork(e: Endpoint): nat {
    if e.timer.NoTimer? then 0
    else if !e.timer.MayExpire() then 1
    else
      var next := if e.timer.deadline < e.clock then e.clock else e.timer.deadline;
      var idleLeft := e.lastActivity + HEARTBEAT_TIMEOUT - next;
      if idleLeft > 2 * HEARTBEAT_INTERVAL then 4
      else if idleLeft > HEARTBEAT_INTERVAL then 3
      else if idleLeft > 0 then 2
      else 1
  }

  function Work(e: Endpoint): nat {
    ReadWork(e.inlet.op) + WriteWork(e.out.op) + TimerWork(e)
  }

  /** Holds of every reachable endpoint: activity is never in the future. */
  ghost predicate Clocked(e: Endpoint) { e.lastActivity <= e.clock }

  lemma ClockedKept(e: Endpoint, a: Action, now: nat, stop: bool)
    requires Clocked(e) && Enabled(e, a, now)
    ensures Clocked(Apply(e, a, now, stop))
    ensures e.closed ==> Apply(e, a, now, stop).closed
  {
  }

  lemma WorkDecreases(e: Endpoint, a: Action, now: nat, stop: bool)
    requires e.closed && Clocked(e) && Control(e.out, true) && Enabled(e, a, now)
    ensures a.IsCompletion() ==> Work(Apply(e, a, now, stop)) < Work(e)
    ensures !a.IsCompletion() ==> Work(Apply(e, a, now, stop)) <= Work(e)
  {
  }

  /** The work left is at most twelve handlers, and as long as any is left, some handler can run. */
  lemma WorkBounded(e: Endpoint)
    requires Clocked(e) && Control(e.out, e.closed)
    ensures Work(e) <= 12
    ensures Work(e) == 0 <==> e.inlet.op.NoRead? && e.out.op.NoWrite? && e.timer.NoTimer?
    ensures 0 < Work(e) ==> exists a: Action, now: nat :: a.IsCompletion() && Enabled(e, a, now)
  {
    if e.inlet.op.Read? {
      var a := if e.inlet.op.want.Head? then OnHeader(false) else OnBody(false, false);
      assert a.IsCompletion() && Enabled(e, a, e.clock);
    } else if e.out.op.Write? {
      assert OnWritten(false).IsCompletion() && Enabled(e, OnWritten(false), e.clock);
    } else if e.timer.Timer? {
      var ok := e.timer.MayExpire();
      var now := if e.timer.deadline < e.clock then e.clock else e.timer.deadline;
      assert OnTimer(ok).IsCompletion() && Enabled(e, OnTimer(ok), now);
    }
  }

  // ----- Whole runs -----

  datatype Step = Step(action: Action, now: nat, stop: bool)

  ghost predicate CanRun(e: Endpoint, steps: seq<Step>)
    decreases |steps|
  {
    steps != [] ==>
      && Enabled(e, steps[0].action, steps[0].now)
      && CanRun(Apply(e, steps[0].action, steps[0].now, steps[0].stop), steps[1..])
  }

  ghost function Run(e: Endpoint, steps: seq<Step>): Endpoint
    requires CanRun(e, steps)
    decreases |steps|
  {
    if steps == [] then e
    else Run(Apply(e, steps[0].action, steps[0].now, steps[0].stop), steps[1..])
  }

  ghost function Completions(steps: seq<Step>): nat {
    if steps == [] then 0 else (if steps[0].action.IsCompletion() then 1 else 0) + Completions(steps[1..])
  }

  /**
   * Drain after close: in any run of a closed endpoint, whatever was already queued and whichever chain it
   * re-arms, at most twelve more completion handlers run, and each uses up some of the remaining work.
   */
  lemma {:induction false} ClosedEndpointDrains(e: Endpoint, steps: seq<Step>)
    requires e.closed && Clocked(e) && Pump(e.out, true) && CanRun(e, steps)
    ensures Completions(steps) + Work(Run(e, steps)) <= Work(e) <= 12
    decreases |steps|
  {
    WorkBounded(e);
    if steps != [] {
      var s := steps[0];
      WorkDecreases(e, s.action, s.now, s.stop);
      ClockedKept(e, s.action, s.now, s.stop);
      PumpKept(e, s.action, s.now, s.stop);
      ClosedEndpointDrains(Apply(e, s.action, s.now, s.stop), steps[1..]);
    }
  }

  /** A body read was complete when the socket closed, and its handler is still to come. */
  predicate Ripe(e: Endpoint) {
    var op := e.inlet.op;
    op.Read? && op.want.Body? && !op.doomed && |op.got| == op.need
  }

  /** Payloads a closed endpoint can still deliver. */
  function LateDeliveries(e: Endpoint): nat {
    if Ripe(e) then 1 else 0
  }

  lemma LateStep(e: Endpoint, a: Action, now: nat, stop: bool)
    requires e.closed && Enabled(e, a, now) && Reader(e.inlet)
    ensures var e' := Apply(e, a, now, stop);
            && |DataOf(e'.inlet.heard)| + LateDeliveries(e') <= |DataOf(e.inlet.heard)| + LateDeliveries(e)
            && DataOf(e.inlet.heard) <= DataOf(e'.inlet.heard)
            && e'.out.sent == e.out.sent && e'.inlet.incoming == e.inlet.incoming
            && e'.out.Accepted() == e.out.Accepted()
  {
    var e', i := Apply(e, a, now, stop), e.inlet;
    if a.OnHeader? && |e'.inlet.heard| > |i.heard| {
      assert e'.inlet.heard[..|i.heard|] == i.heard;
    } else if a.OnBody? && |e'.inlet.heard| > |i.heard| {
      assert e'.inlet.heard[..|i.heard|] == i.heard;
    } else if a.OnWritten? {
      assert e.out.queue == [e.out.queue[0]] + e.out.queue[1..];
      ConcatAssoc(e.out.popped, [e.out.queue[0]], e.out.queue[1..]);
    }
  }

  /** After the close, nothing more is accepted, sent or taken off the wire, and at most one payload is delivered. */
  lemma {:induction false} ClosedEndpointIsQuiet(e: Endpoint, steps: seq<Step>)
    requires e.closed && Clocked(e) && Pump(e.out, true) && Reader(e.inlet) && CanRun(e, steps)
    ensures var e' := Run(e, steps);
            && DataOf(e.inlet.heard) <= DataOf(e'.inlet.heard)
            && |DataOf(e'.inlet.heard)| <= |DataOf(e.inlet.heard)| + LateDeliveries(e)
            && e'.out.sent == e.out.sent && e'.inlet.incoming == e.inlet.incoming
            && e'.out.Accepted() == e.out.Accepted()
    decreases |steps|
  {
    if steps != [] {
      var s := steps[0];
      LateStep(e, s.action, s.now, s.stop);
      ClockedKept(e, s.action, s.now, s.stop);
      PumpKept(e, s.action, s.now, s.stop);
      ReaderKept(e, s.action, s.now, s.stop);
      ClosedEndpointIsQuiet(Apply(e, s.action, s.now, s.stop), steps[1..]);
    }
  }

  /** A closed endpoint delivers a payload in some run exactly if it is ripe. */
  lemma LateDeliveryExactly(e: Endpoint)
    requires e.closed && Clocked(e) && Pump(e.out, true) && Reader(e.inlet)
    ensures (exists steps :: CanRun(e, steps) && DataOf(Run(e, steps).inlet.heard) != DataOf(e.inlet.heard))
            <==> Ripe(e)
  {
    if steps :| CanRun(e, steps) && DataOf(Run(e, steps).inlet.heard) != DataOf(e.inlet.heard) {
      ClosedEndpointIsQuiet(e, steps);
    }
    if Ripe(e) {
      var last := Step(OnBody(true, false), e.clock, false);
      var e' := Apply(e, last.action, last.now, last.stop);
      assert Enabled(e, last.action, last.now) && [last][1..] == [];
      assert CanRun(e', []) && CanRun(e, [last]) && Run(e, [last]) == Run(e', []);
      CompleteFrameIsLegal(e.inlet.headerBuf, e.inlet.op.got);
      assert e'.inlet.heard[..|e.inlet.heard|] == e.inlet.heard;
      assert |DataOf(e'.inlet.heard)| == |DataOf(e.inlet.heard)| + 1;
    }
  }

  // ----- After the drain -----

  /** Nothing is left to do exactly when no completion handler can run. */
  lemma DrainedExactly(e: Endpoint)
    requires Clocked(e) && Control(e.out, e.closed)
    ensures Work(e) == 0 <==> forall a: Action, now: nat :: a.IsCompletion() ==> !Enabled(e, a, now)
  {
    WorkBounded(e);
  }

  /** Every closed endpoint can run dry, and by ClosedEndpointDrains it does so within twelve handlers. */
  lemma {:induction false} EveryRunCanDrain(e: Endpoint) returns (steps: seq<Step>)
    requires e.closed && Clocked(e) && Pump(e.out, true)
    ensures CanRun(e, steps) && Work(Run(e, steps)) == 0
    decreases Work(e)
  {
    hide Apply, Enabled, Pump;
    if Work(e) == 0 {
      steps := [];
    } else {
      PumpIsControlled(e);
      WorkBounded(e);
      var a: Action, now: nat :| a.IsCompletion() && Enabled(e, a, now);
      WorkDecreases(e, a, now, false);
      ClockedKept(e, a, now, false);
      PumpKept(e, a, now, false);
      var rest := EveryRunCanDrain(Apply(e, a, now, false));
      steps := [Step(a, now, false)] + rest;
      assert steps[1..] == rest;
    }
  }

  lemma PumpIsControlled(e: Endpoint)
    requires Pump(e.out, e.closed)
    ensures Control(e.out, e.closed)
  {
  }

  /**
   * What can be left of a closed endpoint's queue: all of it if nothing was being written; all but the front if
   * its write cannot succeed any more; otherwise possibly one frame less, popped by the doomed write that followed.
   */
  ghost predicate MayLeave(o: Outbox, left: seq<Bytes>) {
    if o.op.NoWrite? || o.queue == [] then left == o.queue
    else if o.op.doomed || o.op.done < |o.queue[0]| then left == o.queue[1..]
    else left == o.queue[1..] || (2 <= |o.queue| && left == o.queue[2..])
  }

  lemma StepLeaves(e: Endpoint, a: Action, now: nat, stop: bool, left: seq<Bytes>)
    requires e.closed && Control(e.out, true) && Enabled(e, a, now) && MayLeave(Apply(e, a, now, stop).out, left)
    ensures MayLeave(e.out, left)
  {
    OutAfter(e, a, now, stop);
  }

  lemma {:induction false} RunLeaves(e: Endpoint, steps: seq<Step>)
    requires e.closed && Clocked(e) && Pump(e.out, true) && CanRun(e, steps) && Run(e, steps).out.op.NoWrite?
    ensures MayLeave(e.out, Run(e, steps).out.queue)
    decreases |steps|
  {
    if steps != [] {
      var s := steps[0];
      ClockedKept(e, s.action, s.now, s.stop);
      PumpKept(e, s.action, s.now, s.stop);
      RunLeaves(Apply(e, s.action, s.now, s.stop), steps[1..]);
      StepLeaves(e, s.action, s.now, s.stop, Run(e, steps).out.queue);
    }
  }

  /**
   * Once drained, the frames not given back are exactly those left in the queue; and these are the frames that
   * waited at the close, but for the one or two whose writes had begun or were begun by a late success.
   */
  lemma UnreleasedAfterDrain(e: Endpoint, steps: seq<Step>)
    requires e.closed && Clocked(e) && Pump(e.out, true) && CanRun(e, steps) && Work(Run(e, steps)) == 0
    ensures var e' := Run(e, steps);
            && e'.inlet.op.NoRead? && e'.out.op.NoWrite? && e'.timer.NoTimer?
            && e'.out.pushed - e'.out.released == multiset(e'.out.queue)
            && MayLeave(e.out, e'.out.queue)
  {
    RunKeepsPump(e, steps);
    WorkBounded(Run(e, steps));
    RunLeaves(e, steps);
  }

  lemma {:induction false} RunKeepsPump(e: Endpoint, steps: seq<Step>)
    requires Clocked(e) && Pump(e.out, e.closed) && CanRun(e, steps)
    ensures Pump(Run(e, steps).out, Run(e, steps).closed) && Clocked(Run(e, steps))
    decreases |steps|
  {
    if steps != [] {
      var s := steps[0];
      ClockedKept(e, s.action, s.now, s.stop);
      PumpKept(e, s.action, s.now, s.stop);
      RunKeepsPump(Apply(e, s.action, s.now, s.stop), steps[1..]);
    }
  }
}
