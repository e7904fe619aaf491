/** Termination of the monitor, its two time budgets, and the seconds it pays for. */
module WorkflowTime {
  import opened Shared
  import opened Policy
  import opened Network
  import opened Activities
  import opened Workflow
  import opened WorkflowSafety

  // ── Whole chunks ────────────────────────────────────────────────────

  /** How many chunks of `c` it takes to use up `x`. */
  function Chunks(x: int, c: int): nat
    requires c > 0
    decreases if x > 0 then x else 0
  {
    if x <= 0 then 0 else 1 + Chunks(x - c, c)
  }

  /** `x` rounded up to whole chunks. */
  function Span(x: int, c: int): int
    requires c > 0
    decreases if x > 0 then x else 0
  {
    if x <= 0 then 0 else c + Span(x - c, c)
  }

  lemma OneMoreChunk(x: int, c: int)
    requires c > 0
    ensures (x + c) / c == x / c + 1
  {
    var q, r := x / c, x % c;
    assert x + c == c * (q + 1) + r;
    QuotientIsUnique(x + c, c, q + 1, r);
  }

  lemma QuotientIsUnique(x: int, c: int, q: int, r: int)
    requires c > 0 && x == c * q + r && 0 <= r < c
    ensures x / c == q
  {
    var d := x / c - q;
    assert c * d == r - x % c;
    assert d >= 1 ==> c * d >= c;
    assert d <= -1 ==> c * d <= -c;
  }

  lemma {:induction false} ChunksIsCeiling(x: int, c: int)
    requires c > 0 && x > 0
    ensures Chunks(x, c) == (x + c - 1) / c
    decreases x
  {
    OneMoreChunk(x - 1, c);
    if x > c {
      ChunksIsCeiling(x - c, c);
    } else {
      QuotientIsUnique(x - 1, c, 0, x - 1);
    }
  }

  lemma {:induction false} SpanBounds(x: int, c: int)
    requires c > 0
    ensures x <= Span(x, c) && (x > 0 ==> c <= Span(x, c) < x + c)
    decreases if x > 0 then x else 0
  {
    if x > 0 { SpanBounds(x - c, c); }
  }

  // ── Termination ─────────────────────────────────────────────────────

  /** How many of the four things the loop waits for currently differ from what it knows. */
  function Differences(op: Op): nat {
    (if op.inbox.completed then 1 else 0)
    + (if CongestionDiffers(op) then 1 else 0)
    + (if SuspensionDiffers(op) then 1 else 0)
    + (if DeviceDiffers(op) then 1 else 0)
  }

  lemma {:induction false} EachSignalAddsAtMostOne(op: Op, ss: seq<Signal>)
    ensures Differences(op.(inbox := Deliver(op.inbox, ss))) <= Differences(op) + |ss|
  {
    if ss != [] { EachSignalAddsAtMostOne(op, ss[..|ss| - 1]); }
  }

  /** A wake that is not a completion settles exactly one difference. */
  lemma WakeSettlesOne(op: Op, net: Net, attachRaises: bool)
    requires Awaited(op) && !op.inbox.completed
    ensures Differences(WakeBody(op, net, attachRaises).0) == Differences(op) - 1
  {
    hide WakeBody;
    WakeNotes(op, net, attachRaises);
  }

  /** Only a reading that truly differs from the last one acted on reaches the re-decision. */
  lemma ReassessmentMeansADifference(op: Op, net: Net, attachRaises: bool)
    requires Awaited(op) && !op.inbox.completed
    ensures WakeBody(op, net, attachRaises).0.loop.known != op.loop.known ==>
              CongestionDiffers(op) && !SuspensionDiffers(op) && !DeviceDiffers(op)
    ensures !SuspensionDiffers(op) && !DeviceDiffers(op) ==> CongestionDiffers(op)
  {
    hide WakeBody;
    WakeNotes(op, net, attachRaises);
  }

  function BudgetChunks(op: Op, loop: Loop): nat {
    Chunks(MaxWait(op) - loop.waited, Chunk(op)) + Chunks(SUSPENDED_MAX_SECONDS - loop.suspendedFor, Chunk(op))
  }

  /** An upper bound on the iterations still to come if no further signal arrives. */
  function Potential(op: Op): nat {
    if op.pc.Waiting? then Differences(op) + BudgetChunks(op, op.loop)
    else if BeforeAllocation(op.pc) || op.pc.Confirming? then 3 + BudgetChunks(op, FRESH_LOOP)
    else 0
  }

  predicate IsIteration(op: Op, i: Input) { Enabled(op, i) && (i.Wake? || i.Timeout?) }

  function Iterations(op: Op, h: seq<Turn>): nat
    decreases |h|
  {
    if h == [] then 0
    else (if IsIteration(op, h[0].input) then 1 else 0)
         + Iterations(Step(op, h[0].net, h[0].input).0, h[1..])
  }

  /** Signals that arrived while the monitor was running. */
  function Heard(op: Op, h: seq<Turn>): nat
    decreases |h|
  {
    if h == [] then 0
    else HeardNow(op, h[0].input) + Heard(Step(op, h[0].net, h[0].input).0, h[1..])
  }

  function HeardNow(op: Op, i: Input): nat {
    if !op.pc.Waiting? || !Enabled(op, i) then 0
    else match i
      case Arrives(_) => 1
      case Wake(_, _, during) => |during|
      case Timeout(_, during) => |during|
      case _ => 0
  }

  lemma GuardBoundsPotential(op: Op, during: seq<Signal>)
    ensures Potential(NextIteration(op, during)) <= Differences(op) + |during| + BudgetChunks(op, op.loop)
    ensures Potential(NextIteration(op, during)) <= 3 + BudgetChunks(op, op.loop)
  {
    EachSignalAddsAtMostOne(op, during);
  }

  lemma WakeKeepsBudget(op: Op, net: Net, attachRaises: bool)
    ensures var op' := WakeBody(op, net, attachRaises).0;
            BudgetChunks(op', op'.loop) == BudgetChunks(op, op.loop)
  {
    hide WakeBody, Chunks;
    WakeNotes(op, net, attachRaises);
  }

  lemma TimeoutSpendsBudget(op: Op, net: Net, extendRaises: bool)
    requires op.loop.waited < MaxWait(op) && op.loop.suspendedFor < SUSPENDED_MAX_SECONDS
    ensures var op' := TimeoutBody(op, net, extendRaises).0;
            && BudgetChunks(op', op'.loop) == BudgetChunks(op, op.loop) - 1
            && Differences(op') == Differences(op)
  {
    hide TimeoutBody;
    TimeoutNotes(op, net, extendRaises);
  }

  lemma ConfirmPotential(op: Op, net: Net, i: Input)
    requires OpInv(op) && (i.QosSettled? || i.QosTimedOut?)
    ensures Potential(Step(op, net, i).0) <= Potential(op)
  {
    hide Chunks, Deliver, Differences, PollQod;
    if Enabled(op, i) {
      match i
      case QosSettled(during) => GuardBoundsPotential(OnQosKnown(op), during);
      case QosTimedOut(now, raises, during) => GuardBoundsPotential(OnQosTimedOut(op, net, now, raises).0, during);
    }
  }

  lemma SignalPotential(op: Op, net: Net, s: Signal)
    requires OpInv(op)
    ensures Potential(Step(op, net, Arrives(s)).0) <= Potential(op) + HeardNow(op, Arrives(s))
  {
    assert Deliver(op.inbox, [s]) == Handle(op.inbox, s);
    EachSignalAddsAtMostOne(op, [s]);
  }

  lemma AllocatePotential(op: Op, net: Net, f: AllocateFaults)
    requires OpInv(op) && op.pc.Allocating?
    ensures Potential(OnAllocate(op, net, f).0) <= Potential(op)
  {
    hide Chunks, Allocate, Judge, Differences;
  }

  lemma ReleasePotential(op: Op, net: Net, f: ReleaseFaults)
    requires op.pc.Releasing?
    ensures Potential(OnRelease(op, net, f).0) == 0
  {
    hide Release;
  }

  lemma EarlyPotential(op: Op, net: Net, i: Input)
    requires OpInv(op) && Enabled(op, i) && !i.Arrives? && BeforeAllocation(op.pc) && !op.pc.Allocating?
    ensures Potential(Step(op, net, i).0) <= Potential(op)
  {
    hide Chunks, Judge, Decide, Differences;
  }

  lemma QuietStepPotential(op: Op, net: Net, i: Input)
    requires OpInv(op) && !IsIteration(op, i)
    ensures Potential(Step(op, net, i).0) <= Potential(op) + HeardNow(op, i)
  {
    hide Potential, OnAllocate, OnRelease, OnVerdict, OnWake, OnTimeout, OnQosTimedOut, NextIteration, OpInv;
    if !Enabled(op, i) {
    } else if i.QosSettled? || i.QosTimedOut? {
      ConfirmPotential(op, net, i);
    } else if i.Arrives? {
      SignalPotential(op, net, i.signal);
    } else if i.AllocateTry? {
      AllocatePotential(op, net, i.allocFaults);
    } else if i.ReleaseTry? {
      ReleasePotential(op, net, i.releaseFaults);
    } else {
      EarlyPotential(op, net, i);
    }
  }

  lemma IterationPotential(op: Op, net: Net, i: Input)
    requires OpInv(op) && IsIteration(op, i)
    ensures Potential(Step(op, net, i).0) < Potential(op) + HeardNow(op, i)
  {
    match i
    case Wake(_, attachRaises, during) =>
      if !op.inbox.completed {
        WakeSettlesOne(op, net, attachRaises);
        WakeKeepsBudget(op, net, attachRaises);
        GuardBoundsPotential(WakeBody(op, net, attachRaises).0, during);
      }
    case Timeout(extendRaises, during) =>
      TimeoutSpendsBudget(op, net, extendRaises);
      GuardBoundsPotential(TimeoutBody(op, net, extendRaises).0, during);
  }

  lemma {:induction false} PotentialPaysForIterations(op: Op, h: seq<Turn>)
    requires OpInv(op)
    ensures Iterations(op, h) + Potential(Exec(op, h)) <= Potential(op) + Heard(op, h)
    decreases |h|
  {
    if h != [] {
      var net, i := h[0].net, h[0].input;
      StepKeepsInv(op, net, i);
      if IsIteration(op, i) { IterationPotential(op, net, i); } else { QuietStepPotential(op, net, i); }
      PotentialPaysForIterations(Step(op, net, i).0, h[1..]);
    }
  }

  /** The monitor ends: every run, any signals, with the bound in closed form. */
  lemma MonitorTerminates(device: string, profile: string, expected: int, h: seq<Turn>)
    requires expected >= 1
    ensures var start := Started(device, profile, expected);
            var c := if expected > 30 then expected else 30;
            Iterations(start, h) <= 3 + Heard(start, h) + (4 * expected + c - 1) / c + (900 + c - 1) / c
  {
    var start := Started(device, profile, expected);
    PotentialPaysForIterations(start, h);
    ChunksIsCeiling(MaxWait(start), Chunk(start));
    ChunksIsCeiling(SUSPENDED_MAX_SECONDS, Chunk(start));
  }

  // ── The whole run ends ──────────────────────────────────────────────

  /** Steps still to come outside the loop, at most. */
  function Rank(op: Op): nat {
    match op.pc
    case CheckingDevice => 18
    case QueryingCongestion => 17
    case ReadingPolicy => 16
    case Assessing => 15
    case Allocating(failed) => if failed < ALLOCATE_ATTEMPTS then 14 - failed else 11
    case Confirming => 11
    case Waiting => 10
    case Releasing(failed) => if failed < RELEASE_ATTEMPTS then RELEASE_ATTEMPTS - failed else 0
    case Done(_) => 0
  }

  /** The steps a run takes, beyond being sent signals. */
  function StepsTaken(op: Op, h: seq<Turn>): nat
    decreases |h|
  {
    if h == [] then 0
    else (if Enabled(op, h[0].input) && !h[0].input.Arrives? then 1 else 0)
         + StepsTaken(Step(op, h[0].net, h[0].input).0, h[1..])
  }

  lemma IterationRank(op: Op, during: seq<Signal>)
    ensures Rank(NextIteration(op, during)) <= 10
  {
  }

  lemma EarlyStepLowersRank(op: Op, net: Net, i: Input)
    requires OpInv(op) && Enabled(op, i) && !i.Arrives?
    requires BeforeAllocation(op.pc) && !op.pc.Allocating?
    ensures Rank(Step(op, net, i).0) < Rank(op)
  {
    hide Judge, Decide;
  }

  lemma AllocateLowersRank(op: Op, net: Net, f: AllocateFaults)
    requires OpInv(op) && op.pc.Allocating?
    ensures Rank(OnAllocate(op, net, f).0) < Rank(op)
  {
    hide Allocate, Judge;
  }

  lemma ReleaseLowersRank(op: Op, net: Net, f: ReleaseFaults)
    requires OpInv(op) && op.pc.Releasing?
    ensures Rank(OnRelease(op, net, f).0) < Rank(op)
  {
    hide Release;
  }

  lemma MonitorStepLowersRank(op: Op, net: Net, i: Input)
    requires OpInv(op) && Enabled(op, i) && !i.Arrives? && InMonitor(op.pc)
    ensures Rank(Step(op, net, i).0) <= 10
  {
    hide NextIteration, WakeBody, TimeoutBody, OnQosTimedOut;
    match i
    case QosSettled(during) => IterationRank(OnQosKnown(op), during);
    case QosTimedOut(now, raises, during) => IterationRank(OnQosTimedOut(op, net, now, raises).0, during);
    case Wake(_, attachRaises, during) => IterationRank(WakeBody(op, net, attachRaises).0, during);
    case Timeout(extendRaises, during) => IterationRank(TimeoutBody(op, net, extendRaises).0, during);
  }

  lemma StepLowersRank(op: Op, net: Net, i: Input)
    requires OpInv(op) && Enabled(op, i)
    ensures Rank(Step(op, net, i).0) <= Rank(op)
    ensures !i.Arrives? && !IsIteration(op, i) ==> Rank(Step(op, net, i).0) < Rank(op)
  {
    hide OnAllocate, OnRelease, OnVerdict, OnWake, OnTimeout, OnQosTimedOut, NextIteration, OpInv;
    if i.Arrives? {
      ArrivalIs(op, net, i.signal);
    } else if InMonitor(op.pc) {
      MonitorStepLowersRank(op, net, i);
    } else if op.pc.Allocating? {
      AllocateLowersRank(op, net, i.allocFaults);
    } else if op.pc.Releasing? {
      ReleaseLowersRank(op, net, i.releaseFaults);
    } else {
      EarlyStepLowersRank(op, net, i);
    }
  }

  lemma {:induction false} RankPaysForSteps(op: Op, h: seq<Turn>)
    requires OpInv(op)
    ensures var end := Exec(op, h);
            StepsTaken(op, h) + Rank(end) + Potential(end) <= Rank(op) + Potential(op) + Heard(op, h)
    decreases |h|
  {
    hide Step, Enabled, Rank, Potential, HeardNow;
    if h != [] {
      var net, i := h[0].net, h[0].input;
      StepKeepsInv(op, net, i);
      if Enabled(op, i) { StepLowersRank(op, net, i); } else { DisabledIsNothing(op, net, i); }
      if IsIteration(op, i) { IterationPotential(op, net, i); } else { QuietStepPotential(op, net, i); }
      RankPaysForSteps(Step(op, net, i).0, h[1..]);
    }
  }

  lemma DisabledIsNothing(op: Op, net: Net, i: Input)
    requires !Enabled(op, i)
    ensures Step(op, net, i).0 == op
  {
  }

  /** From the device check to the last release attempt a run takes a bounded number of steps. */
  lemma EveryRunIsShort(device: string, profile: string, expected: int, h: seq<Turn>)
    requires expected >= 1
    ensures var start := Started(device, profile, expected);
            var c := if expected > 30 then expected else 30;
            StepsTaken(start, h) <= 21 + Heard(start, h) + (4 * expected + c - 1) / c + (900 + c - 1) / c
  {
    hide Exec, StepsTaken, Heard, Chunks;
    var start := Started(device, profile, expected);
    StartHasInv(device, profile, expected);
    hide OpInv;
    RankPaysForSteps(start, h);
    ChunksIsCeiling(MaxWait(start), Chunk(start));
    ChunksIsCeiling(SUSPENDED_MAX_SECONDS, Chunk(start));
  }

  /** And until it is done there is always something it is waiting for that can come about. */
  lemma NeverStuck(op: Op)
    requires !op.pc.Done?
    ensures exists i :: Enabled(op, i) && !i.Arrives?
  {
    hide WakeAwaits, Extendable, Counted, Awaited, Settled;
    match op.pc
    case CheckingDevice => assert Enabled(op, DeviceRead(None));
    case QueryingCongestion => assert Enabled(op, CongestionRead(None));
    case ReadingPolicy => assert Enabled(op, PolicyUnread);
    case Assessing => assert Enabled(op, AssessmentFailed);
    case Allocating(_) => assert Enabled(op, AllocateTry(AllocateFaults(false, false, false)));
    case Confirming =>
      if Settled(op.inbox) {
        assert Enabled(op, QosSettled([]));
      } else {
        assert Enabled(op, QosTimedOut(0, false, []));
      }
    case Waiting =>
      if Awaited(op) { assert Enabled(op, Wake(0, false, [])); } else { assert Enabled(op, Timeout(false, [])); }
    case Releasing(_) => assert Enabled(op, ReleaseTry(ReleaseFaults(false, false)));
  }

  // ── The safety valve ────────────────────────────────────────────────

  /**
   * Seconds spent waiting, by what the load was doing; of those, the ones in waits cut
   * short by a wake, and the ones in full waits that passed while the device was lost.
   */
  datatype Clock = Clock(unsuspended: int, suspended: int, cut: int, lost: int)

  const ZERO_CLOCK := Clock(0, 0, 0, 0)

  function Total(c: Clock): int { c.unsuspended + c.suspended }

  function Plus(a: Clock, b: Clock): Clock {
    Clock(a.unsuspended + b.unsuspended, a.suspended + b.suspended, a.cut + b.cut, a.lost + b.lost)
  }

  function Spent(op: Op, i: Input): Clock {
    if !Enabled(op, i) then ZERO_CLOCK
    else match i
      case Timeout(_, _) =>
        var lost := if op.loop.deviceLost then Chunk(op) else 0;
        if op.loop.wasSuspended then Clock(0, Chunk(op), 0, lost) else Clock(Chunk(op), 0, 0, lost)
      case Wake(elapsed, _, _) =>
        if op.loop.wasSuspended then Clock(0, elapsed, elapsed, 0) else Clock(elapsed, 0, elapsed, 0)
      case _ => ZERO_CLOCK
  }

  function Clocked(op: Op, h: seq<Turn>): Clock
    decreases |h|
  {
    if h == [] then ZERO_CLOCK
    else Plus(Spent(op, h[0].input), Clocked(Step(op, h[0].net, h[0].input).0, h[1..]))
  }

  lemma ExecCons(op: Op, t: Turn, h: seq<Turn>)
    ensures Exec(op, [t] + h) == Exec(Step(op, t.net, t.input).0, h)
    ensures Clocked(op, [t] + h) == Plus(Spent(op, t.input), Clocked(Step(op, t.net, t.input).0, h))
  {
    hide Step, Spent;
    assert ([t] + h)[1..] == h;
  }

  lemma {:induction false} ExecAppend(op: Op, h: seq<Turn>, k: seq<Turn>)
    ensures Exec(op, h + k) == Exec(Exec(op, h), k)
    ensures Clocked(op, h + k) == Plus(Clocked(op, h), Clocked(Exec(op, h), k))
    decreases |h|
  {
    hide Step, Spent;
    if h == [] {
      assert h + k == k;
    } else {
      var next := Step(op, h[0].net, h[0].input).0;
      assert h + k == [h[0]] + (h[1..] + k);
      assert h == [h[0]] + h[1..];
      ExecCons(op, h[0], h[1..] + k);
      ExecCons(op, h[0], h[1..]);
      ExecAppend(next, h[1..], k);
    }
  }

  lemma WakeKeepsCounters(op: Op, net: Net, attachRaises: bool)
    ensures var op' := WakeBody(op, net, attachRaises).0;
            op'.loop.waited == op.loop.waited && op'.loop.suspendedFor == op.loop.suspendedFor
  {
    hide WakeBody;
    WakeNotes(op, net, attachRaises);
  }

  lemma QuietStepKeepsCounters(op: Op, net: Net, i: Input)
    requires OpInv(op) && !(Enabled(op, i) && i.Timeout?)
    ensures var op' := Step(op, net, i).0;
            op'.loop.waited == op.loop.waited && op'.loop.suspendedFor == op.loop.suspendedFor
  {
    if Enabled(op, i) && i.Wake? { WakeKeepsCounters(op, net, i.attachRaises); }
  }

  lemma StepCountsTimeouts(op: Op, net: Net, i: Input)
    requires OpInv(op)
    ensures var op', s := Step(op, net, i).0, Spent(op, i);
            && 0 <= s.cut
            && 0 <= op'.loop.waited - op.loop.waited <= s.unsuspended
            && 0 <= op'.loop.suspendedFor - op.loop.suspendedFor <= s.suspended
            && (op'.loop.waited - op.loop.waited) + (op'.loop.suspendedFor - op.loop.suspendedFor) + s.cut
               == s.unsuspended + s.suspended
  {
    if !(Enabled(op, i) && i.Timeout?) { QuietStepKeepsCounters(op, net, i); }
  }

  /** The two counters are real waiting time, each of its own kind; cut waits are all that is missing. */
  lemma {:induction false} CountersAreRealTime(op: Op, h: seq<Turn>)
    requires OpInv(op)
    ensures var op', c := Exec(op, h), Clocked(op, h);
            && 0 <= c.cut
            && 0 <= op'.loop.waited - op.loop.waited <= c.unsuspended
            && 0 <= op'.loop.suspendedFor - op.loop.suspendedFor <= c.suspended
            && (op'.loop.waited - op.loop.waited) + (op'.loop.suspendedFor - op.loop.suspendedFor) + c.cut
               == c.unsuspended + c.suspended
    decreases |h|
  {
    if h != [] {
      StepKeepsInv(op, h[0].net, h[0].input);
      StepCountsTimeouts(op, h[0].net, h[0].input);
      CountersAreRealTime(Step(op, h[0].net, h[0].input).0, h[1..]);
    }
  }

  /** Monitoring that ended with no completion and no failure ended on a spent budget. */
  predicate ValveInv(op: Op) {
    && (op.pc.Releasing? || op.pc == Done(GaveBack)) && !op.crashed && !op.inbox.completed ==>
         op.loop.waited >= MaxWait(op) || op.loop.suspendedFor >= SUSPENDED_MAX_SECONDS
  }

  predicate CountersBounded(op: Op) {
    && op.loop.waited < MaxWait(op) + Chunk(op)
    && op.loop.suspendedFor < SUSPENDED_MAX_SECONDS + Chunk(op)
  }

  lemma NextIterationKeepsValve(op: Op, during: seq<Signal>)
    ensures ValveInv(NextIteration(op, during))
  {
  }

  lemma StepKeepsValve(op: Op, net: Net, i: Input)
    requires OpInv(op) && ValveInv(op)
    ensures ValveInv(Step(op, net, i).0)
  {
    hide NextIteration, WakeBody, TimeoutBody, OnQosTimedOut, OnQosKnown, Allocate, Release, Judge;
    if Enabled(op, i) && InMonitor(op.pc) && !i.Arrives? {
      match i
      case QosSettled(during) => NextIterationKeepsValve(OnQosKnown(op), during);
      case QosTimedOut(now, raises, during) => NextIterationKeepsValve(OnQosTimedOut(op, net, now, raises).0, during);
      case Wake(_, attachRaises, during) => NextIterationKeepsValve(WakeBody(op, net, attachRaises).0, during);
      case Timeout(extendRaises, during) => NextIterationKeepsValve(TimeoutBody(op, net, extendRaises).0, during);
    }
  }

  lemma StepKeepsCountersBounded(op: Op, net: Net, i: Input)
    requires OpInv(op) && CountersBounded(op) && op.expected >= 1
    ensures CountersBounded(Step(op, net, i).0)
  {
    StepIsLater(op, net, i);
    if !(Enabled(op, i) && i.Timeout?) { QuietStepKeepsCounters(op, net, i); }
  }

  lemma {:induction false} RunKeepsValve(op: Op, h: seq<Turn>)
    requires OpInv(op) && ValveInv(op) && CountersBounded(op) && op.expected >= 1
    ensures var op' := Exec(op, h); ValveInv(op') && CountersBounded(op')
    decreases |h|
  {
    if h != [] {
      StepKeepsInv(op, h[0].net, h[0].input);
      StepKeepsValve(op, h[0].net, h[0].input);
      StepKeepsCountersBounded(op, h[0].net, h[0].input);
      StepIsLater(op, h[0].net, h[0].input);
      RunKeepsValve(Step(op, h[0].net, h[0].input).0, h[1..]);
    }
  }

  lemma ClockRuns(op: Op, h: seq<Turn>, k: nat)
    requires OpInv(op) && k <= |h|
    ensures var before, after := Clocked(op, h[..k]), Clocked(op, h);
            before.unsuspended <= after.unsuspended && before.suspended <= after.suspended
  {
    assert h == h[..k] + h[k..];
    ExecAppend(op, h[..k], h[k..]);
    EveryRunKeepsInv(op, h[..k]);
    CountersAreRealTime(Exec(op, h[..k]), h[k..]);
  }

  /**
   * The safety valve never fires early. `k` is any point of the run at which it is giving
   * back with no completion and no failure, the step that ended the loop above all: whatever
   * arrives afterwards, one budget had been waited out. Neither is overrun by a whole chunk.
   */
  lemma ValveNeverFiresEarly(device: string, profile: string, expected: int, h: seq<Turn>, k: nat)
    requires expected >= 1 && k <= |h|
    ensures var start := Started(device, profile, expected);
            var gone, clock := Exec(start, h[..k]), Clocked(start, h);
            (gone.pc.Releasing? || gone.pc == Done(GaveBack)) && !gone.crashed && !gone.inbox.completed ==>
              clock.unsuspended >= 4 * expected || clock.suspended >= 900
    ensures var start := Started(device, profile, expected);
            var op := Exec(start, h);
            var c := if expected > 30 then expected else 30;
            op.loop.waited < 4 * expected + c && op.loop.suspendedFor < 900 + c
  {
    hide Exec, Clocked;
    var start := Started(device, profile, expected);
    NothingRun(start);
    RunKeepsValve(start, h);
    RunKeepsValve(start, h[..k]);
    CountersAreRealTime(start, h[..k]);
    ClockRuns(start, h, k);
    EscalateOnly(start, h);
    EscalateOnly(start, h[..k]);
  }

  lemma NothingRun(op: Op)
    ensures Exec(op, []) == op && Clocked(op, []) == ZERO_CLOCK
  {
  }

  // ── Paid seconds ────────────────────────────────────────────────────

  /** Seconds of QoD the operation has asked for; the fleet's invariant ties it to the network. */
  function Granted(op: Op): int {
    op.expected + GRACE_SECONDS + op.loop.waited + op.loop.suspendedFor - op.books.forgone
  }

  /** Every whole chunk but the last of each budget can be bought. */
  function GrantCap(op: Op): int {
    var c := Chunk(op);
    op.expected + GRACE_SECONDS + (Span(MaxWait(op), c) - c) + (Span(SUSPENDED_MAX_SECONDS, c) - c)
  }

  predicate GrantInv(op: Op) {
    var c := Chunk(op);
    && op.loop.waited + Span(MaxWait(op) - op.loop.waited, c) == Span(MaxWait(op), c)
    && op.loop.suspendedFor + Span(SUSPENDED_MAX_SECONDS - op.loop.suspendedFor, c) == Span(SUSPENDED_MAX_SECONDS, c)
    && Granted(op) <= GrantCap(op)
  }

  /** A timed-out chunk is bought exactly when both budgets still have room after it. */
  lemma TimeoutBuysOrForgoes(op: Op, net: Net, extendRaises: bool)
    ensures var op' := TimeoutBody(op, net, extendRaises).0;
            && op'.expected == op.expected
            && op'.loop == Counted(op).loop
            && (op'.books.forgone == op.books.forgone + Chunk(op)
                || (op'.books.forgone == op.books.forgone
                    && op'.loop.waited < MaxWait(op) && op'.loop.suspendedFor < SUSPENDED_MAX_SECONDS))
  {
  }

  /** One chunk off either budget keeps that budget's total of whole chunks. */
  lemma CountingKeepsSpans(op: Op)
    requires op.loop.waited < MaxWait(op) && op.loop.suspendedFor < SUSPENDED_MAX_SECONDS
    ensures var l, c := Counted(op).loop, Chunk(op);
            && l.waited + Span(MaxWait(op) - l.waited, c) == op.loop.waited + Span(MaxWait(op) - op.loop.waited, c)
            && l.suspendedFor + Span(SUSPENDED_MAX_SECONDS - l.suspendedFor, c)
               == op.loop.suspendedFor + Span(SUSPENDED_MAX_SECONDS - op.loop.suspendedFor, c)
            && l.waited + l.suspendedFor == op.loop.waited + op.loop.suspendedFor + c
  {
    var l, c := Counted(op).loop, Chunk(op);
    assert MaxWait(op) - (op.loop.waited + c) == (MaxWait(op) - op.loop.waited) - c;
  }

  lemma TimeoutKeepsGrants(op: Op, net: Net, extendRaises: bool)
    requires LoopInv(op) && op.pc.Waiting? && GrantInv(op)
    ensures GrantInv(TimeoutBody(op, net, extendRaises).0)
  {
    hide TimeoutBody, Span;
    TimeoutBuysOrForgoes(op, net, extendRaises);
    CountingKeepsSpans(op);
    SpanBounds(MaxWait(op) - Counted(op).loop.waited, Chunk(op));
    SpanBounds(SUSPENDED_MAX_SECONDS - Counted(op).loop.suspendedFor, Chunk(op));
  }

  lemma WakeKeepsForgone(op: Op, net: Net, attachRaises: bool)
    ensures WakeBody(op, net, attachRaises).0.books.forgone == op.books.forgone
  {
    hide WakeBody;
    WakeNotes(op, net, attachRaises);
  }

  lemma QuietStepKeepsForgone(op: Op, net: Net, i: Input)
    requires OpInv(op) && !(Enabled(op, i) && i.Timeout?)
    ensures Step(op, net, i).0.books.forgone == op.books.forgone
  {
    if Enabled(op, i) && i.Wake? { WakeKeepsForgone(op, net, i.attachRaises); }
  }

  lemma NextIterationKeepsGrants(op: Op, during: seq<Signal>)
    requires GrantInv(op)
    ensures GrantInv(NextIteration(op, during))
  {
  }

  lemma SameCountersSameGrants(op: Op, op': Op)
    requires GrantInv(op) && op'.expected == op.expected && op'.books.forgone == op.books.forgone
    requires op'.loop.waited == op.loop.waited && op'.loop.suspendedFor == op.loop.suspendedFor
    ensures GrantInv(op')
  {
  }

  lemma StepKeepsGrants(op: Op, net: Net, i: Input)
    requires OpInv(op) && GrantInv(op)
    ensures GrantInv(Step(op, net, i).0)
  {
    if Enabled(op, i) && i.Timeout? {
      TimeoutKeepsGrants(op, net, i.extendRaises);
      NextIterationKeepsGrants(TimeoutBody(op, net, i.extendRaises).0, i.during);
    } else {
      StepIsLater(op, net, i);
      QuietStepKeepsCounters(op, net, i);
      QuietStepKeepsForgone(op, net, i);
      SameCountersSameGrants(op, Step(op, net, i).0);
    }
  }

  lemma StartHasGrants(device: string, profile: string, expected: int)
    requires expected >= 1
    ensures GrantInv(Started(device, profile, expected))
  {
    var start := Started(device, profile, expected);
    SpanBounds(MaxWait(start), Chunk(start));
    SpanBounds(SUSPENDED_MAX_SECONDS, Chunk(start));
  }

  lemma {:induction false} RunKeepsGrants(op: Op, h: seq<Turn>)
    requires OpInv(op) && GrantInv(op)
    ensures GrantInv(Exec(op, h))
    decreases |h|
  {
    if h != [] {
      StepKeepsInv(op, h[0].net, h[0].input);
      StepKeepsGrants(op, h[0].net, h[0].input);
      RunKeepsGrants(Step(op, h[0].net, h[0].input).0, h[1..]);
    }
  }

  lemma WholeChunks(e: int)
    requires e >= 1
    ensures Span(e * MAX_OPERATION_MULTIPLIER, e) == e * MAX_OPERATION_MULTIPLIER
  {
    assert Span(0, e) == 0;
    assert Span(e, e) == e + Span(e - e, e);
    assert Span(2 * e, e) == e + Span(2 * e - e, e);
    assert Span(3 * e, e) == e + Span(3 * e - e, e);
    assert Span(4 * e, e) == e + Span(4 * e - e, e);
  }

  /** The cap in numbers. */
  lemma GrantCapInSeconds(op: Op)
    requires op.expected >= 1
    ensures GrantCap(op) <= 5 * op.expected + 958
    ensures op.expected >= 30 ==> GrantCap(op) <= 4 * op.expected + 959
  {
    SpanBounds(MaxWait(op), Chunk(op));
    SpanBounds(SUSPENDED_MAX_SECONDS, Chunk(op));
    if op.expected >= 30 { WholeChunks(op.expected); }
  }
}
