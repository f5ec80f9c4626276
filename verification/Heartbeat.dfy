/** The idle timeout in real time: a silent peer is dropped in a bounded window, a responsive one never. */
module Heartbeat {
  import opened Bytes
  import opened Codec
  import opened Endpoint
  import opened Drain

  /** Handler latency below `d`: nothing happens at an endpoint after its timer has been overdue for `d`. */
  predicate Timely(e: Endpoint, now: nat, d: nat) {
    e.timer.Timer? && e.timer.cancelled.None? ==> now < e.timer.deadline + d
  }

  ghost predicate TimelyRun(e: Endpoint, steps: seq<Step>, d: nat)
    requires CanRun(e, steps)
    decreases |steps|
  {
    steps != [] ==>
      && Timely(e, steps[0].now, d)
      && TimelyRun(Apply(e, steps[0].action, steps[0].now, steps[0].stop), steps[1..], d)
  }

  /** An open endpoint has its timer armed, due at `first` or no later than one interval past the idle timeout. */
  ghost predicate Armed(e: Endpoint, first: nat) {
    !e.closed ==>
      && e.timer.Timer? && e.timer.cancelled.None?
      && (e.timer.deadline < e.lastActivity + HEARTBEAT_TIMEOUT + HEARTBEAT_INTERVAL || e.timer.deadline <= first)
  }

  lemma ArmedKept(e: Endpoint, a: Action, now: nat, stop: bool, first: nat)
    requires Armed(e, first) && Clocked(e) && Enabled(e, a, now)
    ensures Armed(Apply(e, a, now, stop), first)
  {
  }

  /** An open endpoint heard a valid header less than 20 s plus the latency ago, or its first timer is still to come. */
  ghost predicate InTime(e: Endpoint, first: nat, d: nat) {
    !e.closed ==> e.clock < e.lastActivity + HEARTBEAT_TIMEOUT + HEARTBEAT_INTERVAL + d || e.clock < first + d
  }

  /** With no valid header since `lastActivity`, an endpoint is closed by then. */
  lemma {:induction false} SilentPeerIsDroppedInTime(e: Endpoint, steps: seq<Step>, d: nat, first: nat)
    requires Armed(e, first) && Clocked(e) && CanRun(e, steps) && TimelyRun(e, steps, d) && InTime(e, first, d)
    ensures Armed(Run(e, steps), first) && Clocked(Run(e, steps)) && InTime(Run(e, steps), first, d)
    decreases |steps|
  {
    if steps != [] {
      var s := steps[0];
      ArmedKept(e, s.action, s.now, s.stop, first);
      ClockedKept(e, s.action, s.now, s.stop);
      var e' := Apply(e, s.action, s.now, s.stop);
      assert e'.lastActivity >= e.lastActivity && e'.clock == s.now;
      SilentPeerIsDroppedInTime(e', steps[1..], d, first);
    }
  }

  /**
   * From the start of a connection, with latency below `d`: the timer closes an endpoint that last heard a valid
   * header, or stamped its idle clock, at time `a` only at a time in [a + 15 s, a + 20 s + d), unless the keepalive
   * found the write queue full; only a client that took long to connect may be closed later than that, by its first
   * timer.
   */
  lemma IdleCloseWindow(start: nat, activity: nat, steps: seq<Step>, d: nat, now: nat, stop: bool)
    requires activity <= start && 0 < d
    requires CanRun(StartedAfter(start, activity), steps) && TimelyRun(StartedAfter(start, activity), steps, d)
    requires var e := Run(StartedAfter(start, activity), steps);
             !e.closed && Timely(e, now, d) && Enabled(e, OnTimer(true), now)
    ensures var e := Run(StartedAfter(start, activity), steps);
            var e' := Apply(e, OnTimer(true), now, stop);
            && (now < e.lastActivity + 20000 + d || now < start + 5000 + d)
            && (e.lastActivity + 15000 <= now ==> e'.closed)
            && (e'.closed && !QueueFull(e.out) ==> e.lastActivity + 15000 <= now)
  {
    SilentPeerIsDroppedInTime(StartedAfter(start, activity), steps, d, start + HEARTBEAT_INTERVAL);
  }

  // ----- Two endpoints -----

  /** `flight`: when the keepalives were sent whose arrival the receiver has not handled yet, oldest first. */
  ghost predicate Fresh(sender: Endpoint, receiver: Endpoint, flight: seq<nat>, d: nat, lag: nat) {
    && sender.timer.Timer? && sender.timer.cancelled.None?
    && (forall i :: 0 < i < |flight| ==> flight[i] < flight[i - 1] + HEARTBEAT_INTERVAL + d)
    && if flight == [] then sender.timer.deadline <= receiver.lastActivity + HEARTBEAT_INTERVAL + lag
       else
         && flight[0] < receiver.lastActivity + HEARTBEAT_INTERVAL + d + lag
         && sender.timer.deadline == flight[|flight| - 1] + HEARTBEAT_INTERVAL
  }

  /** A timer handler that is not a timeout sends a keepalive. */
  predicate Ticks(e: Endpoint, a: Action, now: nat) {
    a == OnTimer(true) && now - e.lastActivity < HEARTBEAT_TIMEOUT
  }

  lemma FreshAfterSenderStep(sender: Endpoint, receiver: Endpoint, flight: seq<nat>, a: Action, now: nat, stop: bool,
                             d: nat, lag: nat)
    requires Fresh(sender, receiver, flight, d, lag) && Enabled(sender, a, now) && Timely(sender, now, d)
    requires !Apply(sender, a, now, stop).closed
    ensures Fresh(Apply(sender, a, now, stop), receiver, if Ticks(sender, a, now) then flight + [now]
            else flight, d, lag)
  {
  }

  predicate AcceptsHeader(e: Endpoint, a: Action) {
    && a == OnHeader(true) && e.inlet.op.Read? && HEADER_SIZE <= |e.inlet.op.got|
    && DecodeHeader(e.inlet.op.got).Ok?
  }

  lemma FreshAfterReceiverStep(sender: Endpoint, receiver: Endpoint, flight: seq<nat>, a: Action, now: nat, stop: bool,
                               answers: bool, d: nat, lag: nat)
    requires Fresh(sender, receiver, flight, d, lag) && Enabled(receiver, a, now) && Clocked(receiver)
    requires answers ==> AcceptsHeader(receiver, a) && flight != [] && flight[0] <= now
    requires !Apply(receiver, a, now, stop).closed
    ensures Fresh(sender, Apply(receiver, a, now, stop), if answers then flight[1..] else flight, d, lag)
  {
    var receiver' := Apply(receiver, a, now, stop);
    assert receiver'.lastActivity >= receiver.lastActivity;
    if answers {
      assert receiver'.lastActivity == now;
    }
  }

  datatype Pair = Pair(a: Endpoint, b: Endpoint, ab: seq<nat>, ba: seq<nat>)

  /** `answers`: the handler is the one for the oldest keepalive in flight towards this side. */
  datatype PairStep = PairStep(atA: bool, action: Action, now: nat, stop: bool, answers: bool)

  /** Latency below `d` on both sides, and every keepalive handled within `toA` or `toB` by the side it goes to. */
  ghost predicate CanStep(p: Pair, s: PairStep, d: nat, toA: nat, toB: nat) {
    var (me, flight) := if s.atA then (p.a, p.ba) else (p.b, p.ab);
    && Enabled(me, s.action, s.now)
    && Timely(p.a, s.now, d) && Timely(p.b, s.now, d)
    && (p.ab != [] ==> p.ab[0] <= s.now <= p.ab[0] + toB)
    && (p.ba != [] ==> p.ba[0] <= s.now <= p.ba[0] + toA)
    && (s.answers ==> AcceptsHeader(me, s.action) && flight != [])
  }

  ghost function Next(p: Pair, s: PairStep): Pair
    requires Enabled(if s.atA then p.a else p.b, s.action, s.now)
  {
    if s.atA then
      Pair(Apply(p.a, s.action, s.now, s.stop), p.b,
           if Ticks(p.a, s.action, s.now) then p.ab + [s.now] else p.ab,
           if s.answers && p.ba != [] then p.ba[1..] else p.ba)
    else
      Pair(p.a, Apply(p.b, s.action, s.now, s.stop),
           if s.answers && p.ab != [] then p.ab[1..] else p.ab,
           if Ticks(p.b, s.action, s.now) then p.ba + [s.now] else p.ba)
  }

  /** Side A hears from side B often enough. */
  ghost predicate AFresh(p: Pair, d: nat, lag: nat) {
    && !p.a.closed && !p.b.closed && Clocked(p.a) && Clocked(p.b)
    && Fresh(p.b, p.a, p.ba, d, lag)
  }

  lemma AFreshKept(p: Pair, s: PairStep, d: nat, toA: nat, toB: nat, lag: nat)
    requires AFresh(p, d, lag) && CanStep(p, s, d, toA, toB)
    requires !Next(p, s).a.closed && !Next(p, s).b.closed
    ensures AFresh(Next(p, s), d, lag)
  {
    if s.atA {
      FreshAfterReceiverStep(p.b, p.a, p.ba, s.action, s.now, s.stop, s.answers, d, lag);
      ClockedKept(p.a, s.action, s.now, s.stop);
    } else {
      FreshAfterSenderStep(p.b, p.a, p.ba, s.action, s.now, s.stop, d, lag);
      ClockedKept(p.b, s.action, s.now, s.stop);
    }
  }

  /** Runs during which neither side is closed, by either end or by the network. */
  ghost predicate OpenRun(p: Pair, steps: seq<PairStep>, d: nat, toA: nat, toB: nat)
    decreases |steps|
  {
    && !p.a.closed && !p.b.closed
    && (steps != [] ==> CanStep(p, steps[0], d, toA, toB) && OpenRun(Next(p, steps[0]), steps[1..], d, toA, toB))
  }

  ghost function RunPair(p: Pair, steps: seq<PairStep>, d: nat, toA: nat, toB: nat): Pair
    requires OpenRun(p, steps, d, toA, toB)
    decreases |steps|
  {
    if steps == [] then p else RunPair(Next(p, steps[0]), steps[1..], d, toA, toB)
  }

  lemma {:induction false} AFreshAlways(p: Pair, steps: seq<PairStep>, d: nat, toA: nat, toB: nat, lag: nat)
    requires AFresh(p, d, lag) && OpenRun(p, steps, d, toA, toB)
    ensures AFresh(RunPair(p, steps, d, toA, toB), d, lag)
    decreases |steps|
  {
    if steps != [] {
      AFreshKept(p, steps[0], d, toA, toB, lag);
      AFreshAlways(Next(p, steps[0]), steps[1..], d, toA, toB, lag);
    }
  }

  /** When a side started, and its idle clock's stamp at that time: a client takes it before it connects. */
  datatype Begin = Begin(start: nat, stamp: nat) {
    predicate Valid() { stamp <= start }
  }

  ghost function StartedPair(a: Begin, b: Begin): Pair {
    Pair(StartedAfter(a.start, a.stamp), StartedAfter(b.start, b.stamp), [], [])
  }

  /** After the run, the next timer handler of side A is due as a timeout. */
  ghost predicate ATimesOut(a: Begin, b: Begin, steps: seq<PairStep>, s: PairStep, d: nat, toA: nat, toB: nat) {
    && OpenRun(StartedPair(a, b), steps, d, toA, toB)
    && var p := RunPair(StartedPair(a, b), steps, d, toA, toB);
       CanStep(p, s, d, toA, toB) && s.atA && s.action == OnTimer(true) && !Ticks(p.a, s.action, s.now)
  }

  lemma NoTimeoutWithin(a: Begin, b: Begin, steps: seq<PairStep>, s: PairStep, d: nat, toA: nat, toB: nat, lag: nat)
    requires a.Valid() && b.Valid() && b.start <= a.stamp + lag
    requires HEARTBEAT_INTERVAL + d + toA + lag <= HEARTBEAT_TIMEOUT
    ensures !ATimesOut(a, b, steps, s, d, toA, toB)
  {
    if ATimesOut(a, b, steps, s, d, toA, toB) {
      AFreshAlways(StartedPair(a, b), steps, d, toA, toB, lag);
    }
  }

  // ----- The bound cannot be improved -----

  /** One tick of an open end whose queue has room. */
  lemma Tick(e: Endpoint, now: nat)
    requires !e.closed && e.timer.Timer? && e.timer.cancelled.None? && e.timer.deadline <= now && e.clock <= now
    requires now - e.lastActivity < HEARTBEAT_TIMEOUT && |e.out.queue| < 10
    ensures Enabled(e, OnTimer(true), now)
    ensures var e' := Apply(e, OnTimer(true), now, false);
            && !e'.closed && e'.timer == Timer(now + HEARTBEAT_INTERVAL, None) && e'.clock == now
            && e'.lastActivity == e.lastActivity && |e'.out.queue| == |e.out.queue| + 1
  {
  }

  /** A run that consists of keepalive ticks of side A (true) or side B (false), with what it leaves behind. */
  ghost predicate Quietly(p: Pair, lastA: nat, lastB: nat) {
    && !p.a.closed && p.a.timer == Timer(lastA + HEARTBEAT_INTERVAL, None) && p.a.clock == lastA && |p.a.out.queue| <= 3
    && !p.b.closed && p.b.timer == Timer(lastB + HEARTBEAT_INTERVAL, None) && p.b.clock == lastB && |p.b.out.queue| <= 3
  }

  lemma OneStepLast(p: Pair, steps: seq<PairStep>, s: PairStep, d: nat, toA: nat, toB: nat)
    requires OpenRun(p, steps, d, toA, toB)
    requires var q := RunPair(p, steps, d, toA, toB);
             CanStep(q, s, d, toA, toB) && !Next(q, s).a.closed && !Next(q, s).b.closed
    ensures OpenRun(p, steps + [s], d, toA, toB)
    ensures RunPair(p, steps + [s], d, toA, toB) == Next(RunPair(p, steps, d, toA, toB), s)
    decreases |steps|
  {
    hide Apply, Enabled;
    if steps == [] {
      assert steps + [s] == [s] && [s][1..] == [];
    } else {
      OneStepLast(Next(p, steps[0]), steps[1..], s, d, toA, toB);
      assert (steps + [s])[1..] == steps[1..] + [s];
    }
  }

  function TickAt(atA: bool, now: nat): PairStep {
    PairStep(atA, OnTimer(true), now, false, false)
  }

  /** Appends one tick to a run of ticks. */
  lemma TickOnce(p0: Pair, steps: seq<PairStep>, atA: bool, now: nat, d: nat, toA: nat, toB: nat)
    requires OpenRun(p0, steps, d, toA, toB)
    requires var p := RunPair(p0, steps, d, toA, toB);
             && Quietly(p, p.a.clock, p.b.clock) && |p.a.out.queue| < 3 && |p.b.out.queue| < 3
             && (if atA then p.a else p.b).timer.deadline <= now
             && now - (if atA then p.a else p.b).lastActivity < HEARTBEAT_TIMEOUT
             && now < p.a.timer.deadline + d && now < p.b.timer.deadline + d
             && (p.ab != [] ==> p.ab[0] <= now <= p.ab[0] + toB)
             && (p.ba != [] ==> p.ba[0] <= now <= p.ba[0] + toA)
    ensures OpenRun(p0, steps + [TickAt(atA, now)], d, toA, toB)
    ensures var p, p' := RunPair(p0, steps, d, toA, toB), RunPair(p0, steps + [TickAt(atA, now)], d, toA, toB);
            && Quietly(p', if atA then now else p.a.clock, if atA then p.b.clock else now)
            && |p'.a.out.queue| == |p.a.out.queue| + (if atA then 1 else 0)
            && |p'.b.out.queue| == |p.b.out.queue| + (if atA then 0 else 1)
            && p'.a.lastActivity == p.a.lastActivity && p'.b.lastActivity == p.b.lastActivity
            && p'.ab == (if atA then p.ab + [now] else p.ab) && p'.ba == (if atA then p.ba else p.ba + [now])
  {
    hide Apply, Enabled, OpenRun, RunPair;
    var p := RunPair(p0, steps, d, toA, toB);
    Tick(if atA then p.a else p.b, now);
    OneStepLast(p0, steps, TickAt(atA, now), d, toA, toB);
  }

  /** Starting `lag` after side A's stamp and ticking `d - 1` late, side B is heard too late by side A. */
  lemma TooLate(d: nat, toA: nat, lag: nat) returns (steps: seq<PairStep>)
    requires 0 < d && HEARTBEAT_INTERVAL + d + toA + lag > HEARTBEAT_TIMEOUT
    ensures ATimesOut(Begin(0, 0), Begin(lag, lag), steps, TickAt(true, 15000), d, toA, 20000)
  {
    hide Apply, OpenRun, RunPair;
    var p0 := StartedPair(Begin(0, 0), Begin(lag, lag));
    var b1 := lag + 4999 + d;
    NoSteps(p0, d, toA, 20000);
    steps := [];
    TickOnce(p0, steps, true, 5000, d, toA, 20000);
    steps := steps + [TickAt(true, 5000)];
    if b1 < 10000 {
      TickOnce(p0, steps, false, b1, d, toA, 20000);
      steps := steps + [TickAt(false, b1)];
    }
    TickOnce(p0, steps, true, 10000, d, toA, 20000);
    steps := steps + [TickAt(true, 10000)];
    if b1 < 10000 {
      TickOnce(p0, steps, false, b1 + 5000, d, toA, 20000);
      steps := steps + [TickAt(false, b1 + 5000)];
    } else if b1 < 15000 {
      TickOnce(p0, steps, false, b1, d, toA, 20000);
      steps := steps + [TickAt(false, b1)];
    }
  }

  /** The run without steps. */
  lemma NoSteps(p: Pair, d: nat, toA: nat, toB: nat)
    requires !p.a.closed && !p.b.closed
    ensures OpenRun(p, [], d, toA, toB) && RunPair(p, [], d, toA, toB) == p
  {
  }

  /**
   * Exactly when a live peer is never given up: interval, latency, network delay and how long after this side's stamp
   * the peer may start (for a client: its connect time included) together stay within the timeout. If so, no run has a
   * timeout; if not, some run has one.
   */
  lemma LivePeerIsKeptExactly(d: nat, toA: nat, lag: nat)
    requires 0 < d
    ensures (forall a: Begin, b: Begin, steps: seq<PairStep>, s: PairStep, toB: nat ::
               a.Valid() && b.Valid() && b.start <= a.stamp + lag ==> !ATimesOut(a, b, steps, s, d, toA, toB))
            <==> HEARTBEAT_INTERVAL + d + toA + lag <= HEARTBEAT_TIMEOUT
  {
    if HEARTBEAT_INTERVAL + d + toA + lag <= HEARTBEAT_TIMEOUT {
      forall a: Begin, b: Begin, steps: seq<PairStep>, s: PairStep, toB: nat
        | a.Valid() && b.Valid() && b.start <= a.stamp + lag
        ensures !ATimesOut(a, b, steps, s, d, toA, toB)
      {
        NoTimeoutWithin(a, b, steps, s, d, toA, toB, lag);
      }
    } else {
      var steps := TooLate(d, toA, lag);
      assert ATimesOut(Begin(0, 0), Begin(lag, lag), steps, TickAt(true, 15000), d, toA, 20000);
    }
  }

  /**
   * A client that took ten seconds or more to connect is closed by its first timer although the server session started
   * at the same moment as its reads, the network has no delay and every handler runs in time.
   */
  lemma SlowConnectTimesOut(connect: nat)
    requires 10000 <= connect
    ensures ATimesOut(Begin(connect, 0), Begin(connect, connect), [], TickAt(true, connect + HEARTBEAT_INTERVAL), 1, 0,
            0)
  {
  }

  // ----- Both sides -----

  /** The same pair with the names of the sides exchanged. */
  ghost function Swapped(p: Pair): Pair { Pair(p.b, p.a, p.ba, p.ab) }

  function SwappedSteps(steps: seq<PairStep>): seq<PairStep> {
    if steps == [] then [] else [steps[0].(atA := !steps[0].atA)] + SwappedSteps(steps[1..])
  }

  lemma {:induction false} SwappedRun(p: Pair, steps: seq<PairStep>, d: nat, toA: nat, toB: nat)
    requires OpenRun(p, steps, d, toA, toB)
    ensures OpenRun(Swapped(p), SwappedSteps(steps), d, toB, toA)
    ensures RunPair(Swapped(p), SwappedSteps(steps), d, toB, toA) == Swapped(RunPair(p, steps, d, toA, toB))
    decreases |steps|
  {
    hide Apply, Enabled;
    if steps != [] {
      SwappedRun(Next(p, steps[0]), steps[1..], d, toA, toB);
      assert SwappedSteps(steps)[1..] == SwappedSteps(steps[1..]);
      assert Next(Swapped(p), SwappedSteps(steps)[0]) == Swapped(Next(p, steps[0]));
    }
  }

  /** After the run, the next timer handler of side B is due as a timeout. */
  ghost predicate BTimesOut(a: Begin, b: Begin, steps: seq<PairStep>, s: PairStep, d: nat, toA: nat, toB: nat) {
    && OpenRun(StartedPair(a, b), steps, d, toA, toB)
    && var p := RunPair(StartedPair(a, b), steps, d, toA, toB);
       CanStep(p, s, d, toA, toB) && !s.atA && s.action == OnTimer(true) && !Ticks(p.b, s.action, s.now)
  }

  lemma BTimesOutSwapped(a: Begin, b: Begin, steps: seq<PairStep>, s: PairStep, d: nat, toA: nat, toB: nat)
    ensures BTimesOut(a, b, steps, s, d, toA, toB)
            ==> ATimesOut(b, a, SwappedSteps(steps), s.(atA := true), d, toB, toA)
    ensures ATimesOut(a, b, steps, s, d, toA, toB)
            ==> BTimesOut(b, a, SwappedSteps(steps), s.(atA := false), d, toB, toA)
  {
    hide OpenRun, RunPair, Apply, Enabled;
    if OpenRun(StartedPair(a, b), steps, d, toA, toB) {
      SwappedRun(StartedPair(a, b), steps, d, toA, toB);
    }
  }

  /**
   * Exactly when neither of two live ends ever gives the other up: on each side, interval, latency, the delay of the
   * other's keepalives and the time from its own idle stamp to the other's start stay within the timeout.
   */
  lemma BothAreKeptExactly(d: nat, toA: nat, toB: nat, lagA: nat, lagB: nat)
    requires 0 < d
    ensures (&& (forall a: Begin, b: Begin, steps: seq<PairStep>, s: PairStep, other: nat ::
                   a.Valid() && b.Valid() && b.start <= a.stamp + lagA ==> !ATimesOut(a, b, steps, s, d, toA, other))
             && (forall a: Begin, b: Begin, steps: seq<PairStep>, s: PairStep, other: nat ::
                   a.Valid() && b.Valid() && a.start <= b.stamp + lagB ==> !BTimesOut(a, b, steps, s, d, other, toB)))
            <==> (&& HEARTBEAT_INTERVAL + d + toA + lagA <= HEARTBEAT_TIMEOUT
                  && HEARTBEAT_INTERVAL + d + toB + lagB <= HEARTBEAT_TIMEOUT)
  {
    hide ATimesOut, BTimesOut;
    LivePeerIsKeptExactly(d, toA, lagA);
    if HEARTBEAT_INTERVAL + d + toB + lagB <= HEARTBEAT_TIMEOUT {
      forall a: Begin, b: Begin, steps: seq<PairStep>, s: PairStep, other: nat
        | a.Valid() && b.Valid() && a.start <= b.stamp + lagB
        ensures !BTimesOut(a, b, steps, s, d, other, toB)
      {
        BTimesOutSwapped(a, b, steps, s, d, other, toB);
        NoTimeoutWithin(b, a, SwappedSteps(steps), s.(atA := true), d, toB, other, lagB);
      }
    } else {
      var steps := TooLate(d, toB, lagB);
      BTimesOutSwapped(Begin(0, 0), Begin(lagB, lagB), steps, TickAt(true, 15000), d, toB, 20000);
      assert BTimesOut(Begin(lagB, lagB), Begin(0, 0), SwappedSteps(steps), TickAt(false, 15000), d, 20000, toB);
    }
  }

  /**
   * A client (side A) that connected within `connect` and a session (side B), their starts at most `skew` apart: within
   * the bound no timer handler on either side is ever a timeout.
   */
  lemma NeitherSideTimesOut(a: Begin, b: Begin, steps: seq<PairStep>, s: PairStep, d: nat, delay: nat, connect: nat,
      skew: nat)
    requires a.stamp <= a.start <= a.stamp + connect && b.stamp == b.start
    requires a.start <= b.start + skew && b.start <= a.start + skew
    requires HEARTBEAT_INTERVAL + d + delay + connect + skew <= HEARTBEAT_TIMEOUT
    requires OpenRun(StartedPair(a, b), steps, d, delay, delay)
    requires var p := RunPair(StartedPair(a, b), steps, d, delay, delay);
             CanStep(p, s, d, delay, delay) && s.action == OnTimer(true)
    ensures var p := RunPair(StartedPair(a, b), steps, d, delay, delay);
            Ticks(if s.atA then p.a else p.b, s.action, s.now)
  {
    hide OpenRun, RunPair, Apply;
    if s.atA {
      NoTimeoutWithin(a, b, steps, s, d, delay, delay, connect + skew);
    } else {
      SwappedRun(StartedPair(a, b), steps, d, delay, delay);
      NoTimeoutWithin(b, a, SwappedSteps(steps), s.(atA := true), d, delay, delay, skew);
    }
  }

  // ----- Why connect time and difference of starts do not simply add up -----

  /** Side A, which connected within 4999 ms, has heard nothing yet; side B started with it and has no latency. */
  ghost predicate NothingHeard(p: Pair, a: Begin) {
    && !p.a.closed && !p.b.closed && Clocked(p.a) && Clocked(p.b) && a.start <= p.a.clock
    && p.a.lastActivity == a.stamp && p.a.timer.Timer? && p.a.timer.cancelled.None?
    && (p.a.timer.deadline == a.start + 5000 || p.a.timer.deadline == a.start + 10000
        || p.a.timer.deadline == a.start + 15000)
    && p.b.timer.Timer? && p.b.timer.cancelled.None?
    && (forall i :: 0 < i < |p.ba| ==> p.ba[i] < p.ba[i - 1] + HEARTBEAT_INTERVAL + 1)
    && if p.ba == [] then p.b.timer.deadline == a.start + 5000
       else p.ba[0] == a.start + 5000 && p.b.timer.deadline == p.ba[|p.ba| - 1] + 5000
  }

  /** What a step that leaves an end open does to its clocks. */
  lemma StepFacts(e: Endpoint, a: Action, now: nat, stop: bool)
    requires Enabled(e, a, now) && !Apply(e, a, now, stop).closed && e.timer.Timer? && e.timer.cancelled.None?
    ensures var e' := Apply(e, a, now, stop);
            && !e.closed && e.clock <= now && e'.clock == now
                && (e'.lastActivity == e.lastActivity || e'.lastActivity == now)
            && (AcceptsHeader(e, a) ==> e'.lastActivity == now)
            && e'.timer == (if a.OnTimer? then Timer(now + HEARTBEAT_INTERVAL, None) else e.timer)
            && (a.OnTimer? <==> Ticks(e, a, now))
            && (a.OnTimer? ==> e.timer.deadline <= now && e'.lastActivity == e.lastActivity)
  {
  }

  lemma NothingHeardByA(p: Pair, s: PairStep, a: Begin, toB: nat)
    requires a.stamp <= a.start <= a.stamp + 4999 && s.atA
    requires NothingHeard(p, a) && CanStep(p, s, 1, 5001, toB) && !Next(p, s).a.closed
    ensures NothingHeard(Next(p, s), a) || AFresh(Next(p, s), 1, 0)
  {
    hide Apply, Enabled, DecodeHeader;
    StepFacts(p.a, s.action, s.now, s.stop);
    ClockedKept(p.a, s.action, s.now, s.stop);
    var q := Next(p, s);
    assert q.b == p.b && q.a == Apply(p.a, s.action, s.now, s.stop);
    if s.answers {
      assert q.ba == p.ba[1..];
      assert q.ba != [] ==> q.ba[0] == p.ba[1] && q.ba[|q.ba| - 1] == p.ba[|p.ba| - 1];
      assert AFresh(q, 1, 0);
    } else if q.a.lastActivity == s.now {
      assert q.ba == p.ba;
      assert AFresh(q, 1, 0);
    }
  }

  lemma NothingHeardByB(p: Pair, s: PairStep, a: Begin, toB: nat)
    requires NothingHeard(p, a) && CanStep(p, s, 1, 5001, toB) && !Next(p, s).b.closed && !s.atA
    ensures NothingHeard(Next(p, s), a)
  {
    hide Apply, Enabled;
    StepFacts(p.b, s.action, s.now, s.stop);
    ClockedKept(p.b, s.action, s.now, s.stop);
  }

  lemma {:induction false} HeardInTime(p: Pair, steps: seq<PairStep>, a: Begin, toB: nat)
    requires a.stamp <= a.start <= a.stamp + 4999
    requires (NothingHeard(p, a) || AFresh(p, 1, 0)) && OpenRun(p, steps, 1, 5001, toB)
    ensures var q := RunPair(p, steps, 1, 5001, toB); NothingHeard(q, a) || AFresh(q, 1, 0)
    decreases |steps|
  {
    hide NothingHeard, AFresh, Apply, Enabled;
    if steps != [] {
      OpenAfter(p, steps, toB);
      if AFresh(p, 1, 0) {
        AFreshKept(p, steps[0], 1, 5001, toB, 0);
      } else if steps[0].atA {
        NothingHeardByA(p, steps[0], a, toB);
      } else {
        NothingHeardByB(p, steps[0], a, toB);
      }
      HeardInTime(Next(p, steps[0]), steps[1..], a, toB);
    }
  }

  lemma OpenAfter(p: Pair, steps: seq<PairStep>, toB: nat)
    requires steps != [] && OpenRun(p, steps, 1, 5001, toB)
    ensures CanStep(p, steps[0], 1, 5001, toB)
    ensures !Next(p, steps[0]).a.closed && !Next(p, steps[0]).b.closed
  {
  }

  /**
   * With at most 4999 ms to connect, equal starts, no lateness and a delay of up to 5001 ms the sum exceeds the
   * timeout, and still no run gives the live peer up: ticks are five seconds apart, and none falls between the timeout
   * and the arrival of the first keepalive.
   */
  lemma SumIsNotNecessary(a: Begin, b: Begin, steps: seq<PairStep>, s: PairStep, toB: nat)
    requires a.stamp <= a.start <= a.stamp + 4999 && b == Begin(a.start, a.start)
    ensures HEARTBEAT_INTERVAL + 1 + 5001 + 4999 > HEARTBEAT_TIMEOUT
    ensures !ATimesOut(a, b, steps, s, 1, 5001, toB)
  {
    if ATimesOut(a, b, steps, s, 1, 5001, toB) {
      HeardInTime(StartedPair(a, b), steps, a, toB);
    }
  }
}
