/** When a live session has been paid for, second by second, and when it runs out. */
module WorkflowLapse {
  import opened Shared
  import opened Policy
  import opened Network
  import opened Activities
  import opened Workflow
  import opened WorkflowSafety
  import opened WorkflowTime

  // ── When a chunk goes unbought ──────────────────────────────────────

  ghost predicate LossRecorded(trail: seq<Record>) {
    exists k | 1 <= k < |trail| :: trail[k] == Record(DEVICE_CHECKED, reachable := Some(false))
  }

  /** While the loop lives, the only unbought chunks are those the trail accounts for. */
  ghost predicate LossInv(op: Op) {
    && (!BeforeAllocation(op.pc) && !op.pc.Done? ==> |op.trail| >= 1)
    && (op.pc.Waiting? && (op.books.forgone != 0 || op.loop.deviceLost) ==> LossRecorded(op.trail))
  }

  lemma LossStays(trail: seq<Record>, trail': seq<Record>)
    requires LossRecorded(trail) && trail <= trail'
    ensures LossRecorded(trail')
  {
    var k :| 1 <= k < |trail| && trail[k] == Record(DEVICE_CHECKED, reachable := Some(false));
    assert trail'[k] == trail[k];
  }

  lemma WakeRecordsLoss(op: Op, net: Net, attachRaises: bool)
    requires BodyInv(op) && |op.trail| >= 1 && (op.loop.deviceLost ==> LossRecorded(op.trail))
    ensures var op' := WakeBody(op, net, attachRaises).0;
            op'.loop.deviceLost ==> LossRecorded(op'.trail)
  {
    WakeIsLater(op, net, attachRaises);
    var op' := WakeBody(op, net, attachRaises).0;
    if op.loop.deviceLost {
      LossStays(op.trail, op'.trail);
    } else if op'.loop.deviceLost {
      assert op'.trail[|op.trail|] == Record(DEVICE_CHECKED, reachable := Some(false));
    }
  }

  lemma StepKeepsLoss(op: Op, net: Net, i: Input)
    requires OpInv(op) && LossInv(op)
    ensures LossInv(Step(op, net, i).0)
  {
    var op' := Step(op, net, i).0;
    StepIsLater(op, net, i);
    if LossRecorded(op.trail) {
      LossStays(op.trail, op'.trail);
    } else if Enabled(op, i) && i.Wake? && !op.inbox.completed {
      MonitorHasBodyInv(op);
      WakeRecordsLoss(op, net, i.attachRaises);
      WakeKeepsForgone(op, net, i.attachRaises);
    }
  }

  lemma {:induction false} RunKeepsLoss(op: Op, h: seq<Turn>)
    requires OpInv(op) && LossInv(op)
    ensures LossInv(Exec(op, h))
    decreases |h|
  {
    if h != [] {
      StepKeepsInv(op, h[0].net, h[0].input);
      StepKeepsLoss(op, h[0].net, h[0].input);
      RunKeepsLoss(Step(op, h[0].net, h[0].input).0, h[1..]);
    }
  }

  // ── Chunks that passed without the device ───────────────────────────

  predicate Ended(op: Op) { op.pc.Releasing? || op.pc.Done? }

  lemma EndedStays(op: Op, net: Net, i: Input)
    requires OpInv(op) && Ended(op)
    ensures Ended(Step(op, net, i).0) && Spent(op, i) == ZERO_CLOCK
  {
  }

  lemma {:induction false} EndedRunStays(op: Op, h: seq<Turn>)
    requires OpInv(op) && Ended(op)
    ensures Ended(Exec(op, h))
    decreases |h|
  {
    hide Step, Ended;
    if h != [] {
      StepKeepsInv(op, h[0].net, h[0].input);
      EndedStays(op, h[0].net, h[0].input);
      EndedRunStays(Step(op, h[0].net, h[0].input).0, h[1..]);
    }
  }

  /** A chunk that passes and leaves the loop running goes unbought exactly when the device is lost. */
  lemma TimeoutForgoesWhenLost(op: Op, net: Net, i: Input)
    requires OpInv(op) && Enabled(op, i) && i.Timeout?
    ensures var op' := Step(op, net, i).0;
            !Ended(op') ==> op'.books.forgone == op.books.forgone + Spent(op, i).lost
  {
  }

  lemma QuietStepLosesNothing(op: Op, i: Input)
    requires !(Enabled(op, i) && i.Timeout?)
    ensures Spent(op, i).lost == 0
  {
  }

  /** While the loop lives, what went unbought is exactly what passed while the device was lost. */
  lemma {:induction false} ForgoneIsLost(op: Op, h: seq<Turn>)
    requires OpInv(op)
    ensures !Ended(Exec(op, h)) ==> Exec(op, h).books.forgone == op.books.forgone + Clocked(op, h).lost
    decreases |h|
  {
    hide Step, Enabled, Spent;
    if h != [] {
      var net, i := h[0].net, h[0].input;
      var next := Step(op, net, i).0;
      StepKeepsInv(op, net, i);
      if Ended(next) {
        EndedRunStays(next, h[1..]);
      } else {
        ForgoneIsLost(next, h[1..]);
        if Enabled(op, i) && i.Timeout? {
          TimeoutForgoesWhenLost(op, net, i);
        } else {
          QuietStepKeepsForgone(op, net, i);
          QuietStepLosesNothing(op, i);
        }
      }
    }
  }

  // ── Second by second ────────────────────────────────────────────────

  /** Whether the second that ends `t` seconds into the monitoring is within what has been granted by then. */
  predicate Paid(op: Op, t: int) { t <= Granted(op) }

  /** A wait that starts `since` seconds in and lasts this long: an extension comes only after it. */
  ghost predicate PaidThrough(op: Op, since: int, seconds: int) {
    forall t | since < t <= since + seconds :: Paid(op, t)
  }

  lemma PaidToTheEnd(op: Op, since: int, seconds: int)
    ensures PaidThrough(op, since, seconds) <==> seconds <= 0 || since + seconds <= Granted(op)
  {
    if seconds > 0 && PaidThrough(op, since, seconds) { assert Paid(op, since + seconds); }
  }

  /** What has been granted against what has been waited for, at any wait of any run. */
  lemma GrantTracksTheWait(device: string, profile: string, expected: int, h: seq<Turn>)
    ensures var start := Started(device, profile, expected);
            var op, clock := Exec(start, h), Clocked(start, h);
            op.pc.Waiting? ==> Granted(op) - Total(clock) == expected + 60 - clock.cut - clock.lost
  {
    var start := Started(device, profile, expected);
    EveryRunKeepsInv(start, h);
    CountersAreRealTime(start, h);
    ForgoneIsLost(start, h);
    EscalateOnly(start, h);
  }

  /**
   * The next `seconds` of a wait are paid for if and only if they, the waits cut short so
   * far and the full waits without the device so far come to no more than E + 60.
   */
  lemma WaitIsPaidIff(device: string, profile: string, expected: int, h: seq<Turn>, seconds: int)
    requires Exec(Started(device, profile, expected), h).pc.Waiting? && seconds > 0
    ensures var start := Started(device, profile, expected);
            var op, clock := Exec(start, h), Clocked(start, h);
            PaidThrough(op, Total(clock), seconds) <==> clock.cut + clock.lost + seconds <= expected + 60
  {
    hide Exec, Clocked, PaidThrough, Granted;
    var start := Started(device, profile, expected);
    GrantTracksTheWait(device, profile, expected, h);
    PaidToTheEnd(Exec(start, h), Total(Clocked(start, h)), seconds);
  }

  /** With no lost device on the trail: a full chunk is paid for while the cut waits leave room for it. */
  lemma FullChunkIsPaidIff(device: string, profile: string, expected: int, h: seq<Turn>)
    requires var op := Exec(Started(device, profile, expected), h); op.pc.Waiting? && !LossRecorded(op.trail)
    ensures var start := Started(device, profile, expected);
            var op, clock, c := Exec(start, h), Clocked(start, h), if expected > 30 then expected else 30;
            && clock.lost == 0
            && Granted(op) == expected + 60 + op.loop.waited + op.loop.suspendedFor
            && (PaidThrough(op, Total(clock), c) <==> clock.cut <= expected + 60 - c)
  {
    hide Exec, Clocked, PaidThrough;
    var start := Started(device, profile, expected);
    WaitIsPaidIff(device, profile, expected, h, Chunk(start));
    NothingForgoneYet(start, h);
    EscalateOnly(start, h);
  }

  lemma NothingForgoneYet(start: Op, h: seq<Turn>)
    requires start == Started(start.device, start.profile, start.expected)
    ensures var op := Exec(start, h);
            op.pc.Waiting? && !LossRecorded(op.trail) ==> op.books.forgone == 0 && Clocked(start, h).lost == 0
  {
    hide Exec, Clocked;
    RunKeepsLoss(start, h);
    ForgoneIsLost(start, h);
  }

  // ── Whole runs ──────────────────────────────────────────────────────

  /** How long the wait that this input ends has lasted. */
  function WaitLength(op: Op, i: Input): int { Total(Spent(op, i)) }

  /** The wait that the run's step `k` ends, if it ends one, was paid for to its end. */
  ghost predicate PaidAt(start: Op, h: seq<Turn>, k: nat)
    requires k < |h|
  {
    var op := Exec(start, h[..k]);
    PaidThrough(op, Total(Clocked(start, h[..k])), WaitLength(op, h[k].input))
  }

  /** Together with the waits cut short and the chunks lost before it, it came to no more than E + 60. */
  ghost predicate FitsAt(start: Op, h: seq<Turn>, k: nat)
    requires k < |h|
  {
    var op, clock := Exec(start, h[..k]), Clocked(start, h[..k]);
    var length := WaitLength(op, h[k].input);
    length > 0 ==> clock.cut + clock.lost + length <= start.expected + 60
  }

  lemma PaidIffFits(device: string, profile: string, expected: int, h: seq<Turn>, k: nat)
    requires k < |h|
    ensures var start := Started(device, profile, expected); PaidAt(start, h, k) <==> FitsAt(start, h, k)
  {
    hide Exec, Clocked, PaidThrough;
    var start := Started(device, profile, expected);
    var op, i := Exec(start, h[..k]), h[k].input;
    PaidToTheEnd(op, Total(Clocked(start, h[..k])), WaitLength(op, i));
    if WaitLength(op, i) > 0 {
      OnlyWaitsTakeTime(op, i);
      WaitIsPaidIff(device, profile, expected, h[..k], WaitLength(op, i));
    }
  }

  lemma OnlyWaitsTakeTime(op: Op, i: Input)
    requires WaitLength(op, i) > 0
    ensures op.pc.Waiting? && Enabled(op, i) && (i.Wake? || i.Timeout?)
  {
  }

  /**
   * No second of monitoring goes unpaid if and only if at every step that ends a wait,
   * the cut waits and lost chunks so far leave room in E + 60 for the whole of that wait.
   */
  lemma NoSecondGoesUnpaidIff(device: string, profile: string, expected: int, h: seq<Turn>)
    ensures var start := Started(device, profile, expected);
            (forall k | 0 <= k < |h| :: PaidAt(start, h, k)) <==> (forall k | 0 <= k < |h| :: FitsAt(start, h, k))
  {
    hide PaidAt, FitsAt;
    var start := Started(device, profile, expected);
    forall k | 0 <= k < |h| ensures PaidAt(start, h, k) <==> FitsAt(start, h, k) {
      PaidIffFits(device, profile, expected, h, k);
    }
  }

  // ── The guarantee can lapse ─────────────────────────────────────────

  /** A congestion reading that differs from the last, `elapsed` seconds into each wait, `n` times. */
  function Flapping(net: Net, known: Option<CongestionLevel>, elapsed: int, n: nat): seq<Turn>
    decreases n
  {
    if n == 0 then []
    else
      var next := if known == Some(Low) then Some(Medium) else Some(Low);
      [Turn(net, Arrives(CongestionUpdated(next))), Turn(net, Wake(elapsed, false, []))]
      + Flapping(net, next, elapsed, n - 1)
  }

  /** Waiting, on plain QoD that no reading can upgrade, with nothing left to react to. */
  predicate Calm(op: Op) {
    && OpInv(op) && op.pc.Waiting? && LoopGuard(op) && !Awaited(op)
    && op.facts.action == QOD && op.loop.action == QOD
  }

  /** One reading that differs, heard `elapsed` seconds into a wait: noted, and nothing else. */
  lemma FlapOnce(op: Op, net: Net, elapsed: int, next: CongestionLevel)
    requires Calm(op) && 0 <= elapsed < Chunk(op) && op.loop.known != Some(next)
    ensures var told := op.(inbox := op.inbox.(congestion := Some(next)));
            var woken := told.(loop := told.loop.(known := Some(next)));
            && Step(op, net, Arrives(CongestionUpdated(Some(next)))).0 == told
            && Step(told, net, Wake(elapsed, false, [])).0 == woken
            && Spent(op, Arrives(CongestionUpdated(Some(next)))) == ZERO_CLOCK
            && Spent(told, Wake(elapsed, false, [])).cut == elapsed
            && Spent(told, Wake(elapsed, false, [])).lost == 0
  {
    hide Decide, Judge;
    NoReadingUpgradesQod(op.facts.criticality, op.facts.congestion, next, op.facts.safety, op.facts.cfg);
    var told := op.(inbox := op.inbox.(congestion := Some(next)));
    assert !WantsSlice(told);
    assert WakeBody(told, net, false).0 == told.(loop := told.loop.(known := Some(next)));
  }

  lemma {:induction false} FlappingBuysNothing(op: Op, net: Net, elapsed: int, n: nat)
    requires Calm(op) && 0 <= elapsed < Chunk(op)
    ensures var h := Flapping(net, op.loop.known, elapsed, n);
            && Calm(Exec(op, h))
            && Granted(Exec(op, h)) == Granted(op)
            && Clocked(op, h).cut == n * elapsed && Clocked(op, h).lost == 0
            && Exec(op, h).trail == op.trail
    decreases n
  {
    hide Step, Spent, WakeBody, Judge;
    if n > 0 {
      var next := if op.loop.known == Some(Low) then Medium else Low;
      var t1, t2 := Turn(net, Arrives(CongestionUpdated(Some(next)))), Turn(net, Wake(elapsed, false, []));
      FlapOnce(op, net, elapsed, next);
      var told := Step(op, net, t1.input).0;
      var woken := Step(told, net, t2.input).0;
      StepKeepsInv(op, net, t1.input);
      StepKeepsInv(told, net, t2.input);
      var rest := Flapping(net, Some(next), elapsed, n - 1);
      FlappingBuysNothing(woken, net, elapsed, n - 1);
      ExecCons(op, t1, [t2] + rest);
      ExecCons(told, t2, rest);
      assert Flapping(net, op.loop.known, elapsed, n) == [t1] + ([t2] + rest);
      assert n * elapsed == elapsed + (n - 1) * elapsed;
    }
  }

  /** An uneventful start: a reachable device, moderate work on a busy network, QoD confirmed. */
  function Deciding(net: Net): seq<Turn> {
    [Turn(net, DeviceRead(Some(true))),
     Turn(net, CongestionRead(Some(High))),
     Turn(net, PolicyRead(WorkerConfig(false), true)),
     Turn(net, Assessed(MEDIUM, false))]
  }

  function Granting(net: Net, net': Net): seq<Turn> {
    [Turn(net, AllocateTry(AllocateFaults(false, false, false))),
     Turn(net', Arrives(QodStatusChanged(Some(AVAILABLE)))),
     Turn(net', QosSettled([]))]
  }

  lemma ExecOne(op: Op, h: seq<Turn>)
    requires h != []
    ensures Exec(op, h) == Exec(Step(op, h[0].net, h[0].input).0, h[1..])
  {
  }

  lemma DecidingGrantsQod(device: string, profile: string, expected: int, net: Net)
    ensures var op := Exec(Started(device, profile, expected), Deciding(net));
            && op.pc == Allocating(0) && op.facts.action == QOD && !op.crashed
            && op.inbox == Inbox(false, false, None, None, None)
            && op.device == device && op.profile == profile && op.expected == expected
            && |op.trail| == 4 && forall k | 1 <= k < 4 :: op.trail[k].step != DEVICE_CHECKED
  {
    var h, o0 := Deciding(net), Started(device, profile, expected);
    var o1 := Emit(o0, Record(DEVICE_CHECKED, reachable := Some(true))).(pc := QueryingCongestion);
    ExecOne(o0, h);
    var o2 := OnCongestionRead(o1, Some(High));
    ExecOne(o1, h[1..]);
    var o3 := o2.(facts := o2.facts.(cfg := WorkerConfig(false), failOpen := true), pc := Assessing);
    ExecOne(o2, h[1..][1..]);
    ExecOne(o3, h[1..][1..][1..]);
    assert h[1..][1..][1..][1..] == [];
  }

  lemma AllocatesQod(op: Op, net: Net)
    requires op.pc == Allocating(0) && op.facts.action == QOD
    ensures var op' := Step(op, net, AllocateTry(AllocateFaults(false, false, false))).0;
            && op'.pc == Confirming && op'.loop == Loop(QOD, op.inbox.congestion, 0, 0, false, false)
            && op'.facts == op.facts && op'.expected == op.expected && op'.crashed == op.crashed
            && op'.inbox == op.inbox.(qosStatus := Some(REQUESTED))
            && |op'.trail| == |op.trail| + 1 && op.trail <= op'.trail && op'.trail[|op.trail|].step == ALLOCATED
  {
  }

  lemma SettlesCalmly(op: Op, net: Net)
    requires op.pc == Confirming && op.expected >= 1 && !op.crashed && LoopGuard(op) && Settled(op.inbox)
    ensures var op' := Step(op, net, QosSettled([])).0;
            && op' == op.(trail := op'.trail, pc := Waiting)
            && |op'.trail| == |op.trail| + 1 && op.trail <= op'.trail
            && op'.trail[|op.trail|].step == QOS_STATUS_CHANGED
  {
  }

  lemma GrantingIsCalm(op: Op, net: Net, net': Net)
    requires op.expected >= 1
    requires op.pc == Allocating(0) && op.facts.action == QOD && !op.crashed
    requires op.inbox == Inbox(false, false, None, None, None)
    ensures var op' := Exec(op, Granting(net, net'));
            && op'.pc == Waiting && LoopGuard(op') && !Awaited(op')
            && op'.facts.action == QOD && op'.loop.action == QOD
            && |op'.trail| == |op.trail| + 2 && op.trail <= op'.trail
            && op'.trail[|op.trail|].step == ALLOCATED && op'.trail[|op.trail| + 1].step == QOS_STATUS_CHANGED
  {
    var h := Granting(net, net');
    var o1 := Step(op, net, h[0].input).0;
    AllocatesQod(op, net);
    ExecOne(op, h);
    var o2 := o1.(inbox := o1.inbox.(qosStatus := Some(AVAILABLE)));
    ExecOne(o1, h[1..]);
    var o3 := Step(o2, net', QosSettled([])).0;
    SettlesCalmly(o2, net');
    ExecOne(o2, h[1..][1..]);
    assert h[1..][1..][1..] == [];
  }

  lemma NoLossIn(early: seq<Record>, trail: seq<Record>)
    requires early <= trail && |trail| == |early| + 2
    requires forall k | 1 <= k < |early| :: early[k].step != DEVICE_CHECKED
    requires trail[|early|].step == ALLOCATED && trail[|early| + 1].step == QOS_STATUS_CHANGED
    ensures !LossRecorded(trail)
  {
    forall k | 1 <= k < |trail| ensures trail[k].step != DEVICE_CHECKED {
      if k < |early| { assert trail[k] == early[k]; }
    }
  }

  lemma CalmIsReachable(device: string, profile: string, expected: int, net: Net, net': Net)
    requires expected >= 1
    ensures var op := Exec(Started(device, profile, expected), Deciding(net) + Granting(net, net'));
            Calm(op) && op.expected == expected && !LossRecorded(op.trail)
  {
    hide Exec, Deciding, Granting, Judge, LossRecorded, OpInv, Awaited;
    var start := Started(device, profile, expected);
    var decided := Exec(start, Deciding(net));
    StartHasInv(device, profile, expected);
    DecidingGrantsQod(device, profile, expected, net);
    GrantingIsCalm(decided, net, net');
    ExecAppend(start, Deciding(net), Granting(net, net'));
    EveryRunKeepsInv(start, Deciding(net) + Granting(net, net'));
    EscalateOnly(start, Deciding(net) + Granting(net, net'));
    NoLossIn(decided.trail, Exec(decided, Granting(net, net')).trail);
  }

  lemma {:induction false} NoTimePasses(op: Op, h: seq<Turn>)
    requires forall k | 0 <= k < |h| :: !h[k].input.Wake? && !h[k].input.Timeout?
    ensures Clocked(op, h) == ZERO_CLOCK
    decreases |h|
  {
    hide Step, Spent;
    if h != [] {
      OnlyWaitsAreClocked(op, h[0].input);
      NoTimePasses(Step(op, h[0].net, h[0].input).0, h[1..]);
    }
  }

  lemma OnlyWaitsAreClocked(op: Op, i: Input)
    requires !i.Wake? && !i.Timeout?
    ensures Spent(op, i) == ZERO_CLOCK
  {
  }

  /** An uneventful start, then `n` waits cut `elapsed` seconds in: nothing bought, nothing lost. */
  lemma CalmThenFlapping(device: string, profile: string, expected: int, net: Net, net': Net, elapsed: int, n: nat)
    returns (h: seq<Turn>)
    requires expected >= 1 && 0 <= elapsed < MIN_CHUNK_SECONDS
    ensures var start := Started(device, profile, expected);
            var op, clock := Exec(start, h), Clocked(start, h);
            && Calm(op) && op.expected == expected && !LossRecorded(op.trail)
            && clock.cut == n * elapsed && clock.lost == 0
            && Granted(op) - Total(clock) == expected + 60 - n * elapsed
  {
    hide Exec, Clocked, Granted;
    var start, pre := Started(device, profile, expected), Deciding(net) + Granting(net, net');
    var calm := Exec(start, pre);
    CalmIsReachable(device, profile, expected, net, net');
    NoTimePasses(start, pre);
    var more := Flapping(net', calm.loop.known, elapsed, n);
    FlappingBuysNothing(calm, net', elapsed, n);
    ExecAppend(start, pre, more);
    h := pre + more;
    EscalateOnly(start, h);
    NothingForgoneYet(start, h);
    GrantTracksTheWait(device, profile, expected, h);
  }

  /**
   * So a session can run out under a live operation. Readings that keep cutting
   * the wait short push the time waited past the time granted by any amount,
   * with no device lost, no failure and nothing else going on.
   */
  lemma GuaranteeCanLapse(device: string, profile: string, expected: int, net: Net, net': Net, debt: nat)
    requires expected >= 1
    ensures exists h :: var start := Started(device, profile, expected);
              var op, clock := Exec(start, h), Clocked(start, h);
              && op.pc.Waiting? && !LossRecorded(op.trail)
              && Total(clock) >= Granted(op) + debt
  {
    var n: nat := expected + 60 + debt;
    var h := CalmThenFlapping(device, profile, expected, net, net', 1, n);
    assert Exec(Started(device, profile, expected), h).pc.Waiting?;
  }

  /**
   * And inside one wait, ahead of its extension, while everything granted so far still
   * covers everything waited so far: the full chunk that comes next is not covered.
   */
  lemma LapsesInsideAWait(device: string, profile: string, expected: int, net: Net, net': Net)
    requires expected >= 1
    ensures exists h :: var start := Started(device, profile, expected);
              var op, clock := Exec(start, h), Clocked(start, h);
              && op.pc.Waiting? && !LossRecorded(op.trail) && Enabled(op, Timeout(false, []))
              && clock.cut <= expected + 60 && Total(clock) <= Granted(op)
              && !PaidThrough(op, Total(clock), Chunk(start))
  {
    var start := Started(device, profile, expected);
    var n: nat := expected + 61 - Chunk(start);
    var h := CalmThenFlapping(device, profile, expected, net, net', 1, n);
    var op, clock := Exec(start, h), Clocked(start, h);
    PaidToTheEnd(op, Total(clock), Chunk(start));
    assert op.pc.Waiting?;
  }
}
