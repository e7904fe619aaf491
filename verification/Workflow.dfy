/**
 * One critical operation as a step machine.
 *
 * A step is whatever happens between two suspensions of the workflow: a signal
 * handler, an activity attempt with its outcome, a wait that ended. The network
 * is a parameter of every step, so other operations may have changed it since.
 */
module Workflow {
  import opened Shared
  import opened Policy
  import opened Network
  import opened Activities

  const GRACE_SECONDS := 60
  const MAX_OPERATION_MULTIPLIER := 4
  const SUSPENDED_MAX_SECONDS := 15 * 60
  const MIN_CHUNK_SECONDS := 30
  const DEFAULT_DURATION_SECONDS := 60
  const ALLOCATE_ATTEMPTS := 3
  const RELEASE_ATTEMPTS := 10

  // ── Signals ─────────────────────────────────────────────────────────

  datatype Signal =
    | OperationCompleted
    | OperationSuspended
    | OperationResumed
    | QodStatusChanged(status: Option<QosStatus>)
    | CongestionUpdated(level: Option<CongestionLevel>)
    | DeviceStatusChanged(reachable: Option<bool>)

  /** The fields the signal handlers write. */
  datatype Inbox = Inbox(
    completed: bool,
    suspended: bool,
    qosStatus: Option<QosStatus>,
    congestion: Option<CongestionLevel>,
    reachable: Option<bool>)

  function Handle(b: Inbox, s: Signal): Inbox {
    match s
    case OperationCompleted => b.(completed := true)
    case OperationSuspended => b.(suspended := true)
    case OperationResumed => b.(suspended := false)
    case QodStatusChanged(q) => b.(qosStatus := q)
    case CongestionUpdated(level) => b.(congestion := level)
    case DeviceStatusChanged(r) => b.(reachable := r)
  }

  function Deliver(b: Inbox, ss: seq<Signal>): Inbox {
    if ss == [] then b else Handle(Deliver(b, ss[..|ss| - 1]), ss[|ss| - 1])
  }

  // ── State ───────────────────────────────────────────────────────────

  datatype Outcome = NothingHeld | GaveBack | ReleaseAbandoned

  datatype Pc =
    | CheckingDevice
    | QueryingCongestion
    | ReadingPolicy
    | Assessing
    | Allocating(failedAttempts: nat)
    | Confirming
    | Waiting
    | Releasing(failedAttempts: nat)
    | Done(outcome: Outcome)

  /** What `run` has learned by the time it allocates. */
  datatype Facts = Facts(
    congestion: CongestionLevel,
    cfg: PolicyConfig,
    failOpen: bool,
    criticality: Criticality,
    safety: bool,
    action: NetworkAction)

  /** The locals of the monitor loop. */
  datatype Loop = Loop(
    action: NetworkAction,
    known: Option<CongestionLevel>,
    waited: int,
    suspendedFor: int,
    wasSuspended: bool,
    deviceLost: bool)

  /** Before the monitor loop: nothing counted, nothing seen. */
  const FRESH_LOOP := Loop(NONE, None, 0, 0, false, false)

  /** Accounts the code does not keep: what the claims about it are stated in. */
  datatype Books = Books(
    orphans: set<string>,   // sessions whose cleanup failed inside allocate
    sessionGone: bool,      // some release attempt deleted the session
    attachmentGone: bool,   // some release attempt detached the device
    forgone: int)           // seconds of timed-out waits that bought no extension

  datatype Op = Op(
    device: string,
    profile: string,
    expected: int,
    pc: Pc,
    inbox: Inbox,
    facts: Facts,
    alloc: Alloc,
    loop: Loop,
    books: Books,
    crashed: bool,
    trail: seq<Record>)

  /** `int(event.get("expectedDurationSeconds") or 60)` */
  function ExpectedDuration(reported: Option<int>): int {
    if reported.Some? && reported.value != 0 then reported.value else DEFAULT_DURATION_SECONDS
  }

  function Started(device: string, profile: string, expected: int): Op {
    Op(device, profile, expected, CheckingDevice,
       Inbox(false, false, None, None, None),
       Facts(Low, WorkerConfig(false), true, LOW, false, NONE),
       NOTHING,
       FRESH_LOOP,
       Books({}, false, false, 0),
       false, [])
  }

  function Chunk(op: Op): int {
    if op.expected > MIN_CHUNK_SECONDS then op.expected else MIN_CHUNK_SECONDS
  }

  function MaxWait(op: Op): int { op.expected * MAX_OPERATION_MULTIPLIER }

  function Emit(op: Op, r: Record): Op { op.(trail := op.trail + [r]) }

  // ── Inputs ──────────────────────────────────────────────────────────

  /** `during` lists the signals delivered while the step's own activities ran. */
  datatype Input =
    | Arrives(signal: Signal)
    | DeviceRead(reachable: Option<bool>)
    | CongestionRead(level: Option<CongestionLevel>)
    | PolicyRead(cfg: PolicyConfig, failOpen: bool)
    | PolicyUnread
    | Assessed(criticality: Criticality, safety: bool)
    | AssessmentFailed
    | AllocateTry(allocFaults: AllocateFaults)
    | QosSettled(during: seq<Signal>)
    | QosTimedOut(now: int, pollRaises: bool, during: seq<Signal>)
    | Wake(elapsed: int, attachRaises: bool, during: seq<Signal>)
    | Timeout(extendRaises: bool, during: seq<Signal>)
    | ReleaseTry(releaseFaults: ReleaseFaults)

  predicate Settled(b: Inbox) { b.qosStatus == Some(AVAILABLE) || b.qosStatus == Some(UNAVAILABLE) }

  predicate CongestionDiffers(op: Op) { op.inbox.congestion != op.loop.known }

  predicate SuspensionDiffers(op: Op) { op.inbox.suspended != op.loop.wasSuspended }

  predicate DeviceDiffers(op: Op) { (op.inbox.reachable == Some(false)) != op.loop.deviceLost }

  /** The condition the monitor waits on. */
  predicate Awaited(op: Op) {
    op.inbox.completed || CongestionDiffers(op) || SuspensionDiffers(op) || DeviceDiffers(op)
  }

  predicate LoopGuard(op: Op) {
    && !op.inbox.completed
    && op.loop.waited < MaxWait(op)
    && op.loop.suspendedFor < SUSPENDED_MAX_SECONDS
  }

  predicate Enabled(op: Op, i: Input) {
    match i
    case Arrives(_) => !op.pc.Done?
    case DeviceRead(_) => op.pc.CheckingDevice?
    case CongestionRead(_) => op.pc.QueryingCongestion?
    case PolicyRead(_, _) => op.pc.ReadingPolicy?
    case PolicyUnread => op.pc.ReadingPolicy?
    case Assessed(_, _) => op.pc.Assessing?
    case AssessmentFailed => op.pc.Assessing?
    case AllocateTry(_) => op.pc.Allocating?
    case QosSettled(_) => op.pc.Confirming? && Settled(op.inbox)
    case QosTimedOut(_, _, _) => op.pc.Confirming? && !Settled(op.inbox)
    case Wake(elapsed, _, during) =>
      op.pc.Waiting? && Awaited(op) && 0 <= elapsed < Chunk(op) && (WakeAwaits(op) || during == [])
    case Timeout(_, during) =>
      op.pc.Waiting? && !Awaited(op) && (Extendable(Counted(op)) || during == [])
    case ReleaseTry(_) => op.pc.Releasing?
  }

  // ── Before the allocation ───────────────────────────────────────────

  function Crash(op: Op): Op { StartRelease(op.(crashed := true)) }

  function OnDeviceRead(op: Op, reachable: Option<bool>): Op {
    match reachable
    case None => Crash(op)
    case Some(r) =>
      var checked := Emit(op, Record(DEVICE_CHECKED, reachable := Some(r)));
      if r then checked.(pc := QueryingCongestion)
      else Emit(checked, Record(DECIDED, action := Some(NONE), reachable := Some(false),
                                rule := Some(GUARD_DEVICE_UNREACHABLE))).(pc := Done(NothingHeld))
  }

  function OnCongestionRead(op: Op, level: Option<CongestionLevel>): Op {
    match level
    case None => Crash(op)
    case Some(c) =>
      Emit(op, Record(CONGESTION_CHECKED, congestion := level))
      .(facts := op.facts.(congestion := c), pc := ReadingPolicy)
  }

  function OnVerdict(op: Op, criticality: Criticality, safety: bool): Op {
    var policy := Judge(criticality, op.facts.congestion, safety, op.facts.cfg);
    var assessed := Emit(op, Record(CRITICALITY_ASSESSED, criticality := Some(criticality)));
    var decided := Emit(assessed, Record(DECIDED, action := Some(policy.action), reachable := Some(true),
                                         criticality := Some(criticality),
                                         congestion := Some(op.facts.congestion),
                                         rule := Some(policy.rule)));
    decided.(facts := op.facts.(criticality := criticality, safety := safety, action := policy.action),
             pc := if policy.action == NONE then Done(NothingHeld) else Allocating(0))
  }

  // ── Allocation ──────────────────────────────────────────────────────

  function OnAllocate(op: Op, net: Net, f: AllocateFaults): (Op, Net)
    requires op.pc.Allocating?
  {
    var (net', outcome) := Allocate(net, op.device, op.profile, op.facts.action, op.expected + GRACE_SECONDS, f);
    match outcome
    case Allocated(a) =>
      (Emit(op, Record(ALLOCATED, action := Some(op.facts.action), session := a.session,
                       qos := Some(REQUESTED), slice := a.slice))
       .(alloc := a,
         inbox := op.inbox.(qosStatus := Some(REQUESTED)),
         loop := Loop(op.facts.action, op.inbox.congestion, 0, 0, false, false),
         pc := Confirming),
       net')
    case Refused => (Crash(op), net')
    case Raised(orphan) =>
      var left := if orphan.Some? then {orphan.value} else {};
      var op' := op.(books := op.books.(orphans := op.books.orphans + left));
      if op.pc.failedAttempts + 1 < ALLOCATE_ATTEMPTS
      then (op'.(pc := Allocating(op.pc.failedAttempts + 1)), net')
      else (Crash(op'), net')
  }

  function OnQosKnown(op: Op): Op {
    Emit(op, Record(QOS_STATUS_CHANGED, session := op.alloc.session, qos := op.inbox.qosStatus))
  }

  function OnQosTimedOut(op: Op, net: Net, now: int, raises: bool): (Op, Net)
    requires op.alloc.session.Some?
  {
    var (net', status) := PollQod(net, op.alloc.session.value, now, raises);
    if status.None? then (op.(crashed := true), net')
    else (OnQosKnown(op.(inbox := op.inbox.(qosStatus := status))), net')
  }

  // ── The monitor loop ────────────────────────────────────────────────

  /** The signals that came in meanwhile, then the guard at the top of the loop. */
  function NextIteration(op: Op, during: seq<Signal>): Op {
    var op' := op.(inbox := Deliver(op.inbox, during));
    if op.crashed || !LoopGuard(op') then StartRelease(op') else op'.(pc := Waiting)
  }

  function TakeSlice(op: Op, slice: string, attachment: string, r: Record): Op {
    Emit(op, r.(action := Some(QOD_AND_SLICE), session := op.alloc.session, slice := Some(slice)))
    .(alloc := op.alloc.(slice := Some(slice), attachment := Some(attachment)),
      loop := op.loop.(action := QOD_AND_SLICE))
  }

  function TryEscalate(op: Op, net: Net, attachRaises: bool, r: Record): (Op, Net) {
    var (net', outcome) := Escalate(net, op.device, attachRaises);
    match outcome
    case Attached(slice, attachment) => (TakeSlice(op, slice, attachment, r), net')
    case SliceUnavailable => (op, net')
    case EscalateRaised => (op.(crashed := true), net')
  }

  function SuspensionPolicy(op: Op): Decision {
    var congestion := if op.inbox.congestion.Some? then op.inbox.congestion.value else Low;
    JudgeSuspended(congestion, op.inbox.reachable != Some(false), op.facts.cfg)
  }

  function ProtectSuspended(op: Op, net: Net, attachRaises: bool): (Op, Net) {
    var policy := SuspensionPolicy(op);
    var decided := Emit(op, Record(DECIDED, action := Some(policy.action),
                                   reachable := Some(op.inbox.reachable != Some(false)),
                                   rule := Some(policy.rule)));
    if op.alloc.slice.Some? || policy.action != QOD_AND_SLICE then (decided, net)
    else TryEscalate(decided, net, attachRaises, Record(ALLOCATED, rule := Some(policy.rule)))
  }

  predicate WantsSlice(op: Op) {
    && op.inbox.congestion.Some?
    && op.alloc.slice.None?
    && (op.loop.action == QOD_AND_SLICE ||
        Judge(op.facts.criticality, op.inbox.congestion.value, op.facts.safety, op.facts.cfg).action == QOD_AND_SLICE)
  }

  function ReassessCongestion(op: Op, net: Net, attachRaises: bool): (Op, Net) {
    if WantsSlice(op)
    then TryEscalate(op, net, attachRaises, Record(ALLOCATED, congestion := op.inbox.congestion))
    else (op, net)
  }

  /** A wake that is not a completion handles one difference, in this order. */
  function WakeBody(op: Op, net: Net, attachRaises: bool): (Op, Net) {
    if op.inbox.suspended && !op.loop.wasSuspended then
      ProtectSuspended(op.(loop := op.loop.(wasSuspended := true)), net, attachRaises)
    else if !op.inbox.suspended && op.loop.wasSuspended then
      (op.(loop := op.loop.(wasSuspended := false)), net)
    else if op.inbox.reachable == Some(false) && !op.loop.deviceLost then
      (Emit(op.(loop := op.loop.(deviceLost := true)), Record(DEVICE_CHECKED, reachable := Some(false))), net)
    else if op.inbox.reachable != Some(false) && op.loop.deviceLost then
      (op.(loop := op.loop.(deviceLost := false)), net)
    else
      ReassessCongestion(op.(loop := op.loop.(known := op.inbox.congestion)), net, attachRaises)
  }

  /** Whether handling this wake suspends the workflow, so that signals can come in. */
  predicate WakeAwaits(op: Op) {
    && !op.inbox.completed
    && (if SuspensionDiffers(op) then op.inbox.suspended
        else if DeviceDiffers(op) then op.inbox.reachable == Some(false)
        else WantsSlice(op))
  }

  function OnWake(op: Op, net: Net, attachRaises: bool, during: seq<Signal>): (Op, Net) {
    if op.inbox.completed then (StartRelease(op), net)
    else
      var (op', net') := WakeBody(op, net, attachRaises);
      (NextIteration(op', during), net')
  }

  /** A full chunk went by: it counts against one budget or the other. */
  function Counted(op: Op): Op {
    if op.inbox.suspended
    then op.(loop := op.loop.(suspendedFor := op.loop.suspendedFor + Chunk(op)))
    else op.(loop := op.loop.(waited := op.loop.waited + Chunk(op)))
  }

  predicate Extendable(op: Op) {
    && op.alloc.session.Some?
    && !op.loop.deviceLost
    && op.loop.waited < MaxWait(op)
    && op.loop.suspendedFor < SUSPENDED_MAX_SECONDS
  }

  function Forgo(op: Op): Op { op.(books := op.books.(forgone := op.books.forgone + Chunk(op))) }

  function TimeoutBody(op: Op, net: Net, extendRaises: bool): (Op, Net) {
    var op' := Counted(op);
    if !Extendable(op') then (Forgo(op'), net)
    else
      var (net', ok) := ExtendQod(net, op.alloc.session.value, Chunk(op), extendRaises);
      (if ok then op' else Forgo(op').(crashed := true), net')
  }

  function OnTimeout(op: Op, net: Net, extendRaises: bool, during: seq<Signal>): (Op, Net) {
    var (op', net') := TimeoutBody(op, net, extendRaises);
    (NextIteration(op', during), net')
  }

  // ── Release ─────────────────────────────────────────────────────────

  /** The `finally` block: with nothing recorded there is nothing to give back. */
  function StartRelease(op: Op): Op {
    op.(pc := if op.alloc.session.None? && op.alloc.attachment.None? then Done(NothingHeld) else Releasing(0))
  }

  function OnRelease(op: Op, net: Net, f: ReleaseFaults): (Op, Net)
    requires op.pc.Releasing?
  {
    var (net', r) := Release(net, op.alloc, f);
    var op' := op.(books := op.books.(sessionGone := op.books.sessionGone || r.qod,
                                      attachmentGone := op.books.attachmentGone || r.slice));
    if r.complete then
      (Emit(op', Record(RELEASED, session := op.alloc.session, slice := op.alloc.slice,
                        qos := if r.qod then Some(UNAVAILABLE) else None)).(pc := Done(GaveBack)),
       net')
    else if op.pc.failedAttempts + 1 < RELEASE_ATTEMPTS then
      (op'.(pc := Releasing(op.pc.failedAttempts + 1)), net')
    else
      (op'.(crashed := true, pc := Done(ReleaseAbandoned)), net')
  }

  // ── The machine ─────────────────────────────────────────────────────

  /** An input the operation is not waiting for changes nothing. */
  function Step(op: Op, net: Net, i: Input): (Op, Net) {
    if !Enabled(op, i) then (op, net)
    else
      match i
      case Arrives(s) => (op.(inbox := Handle(op.inbox, s)), net)
      case DeviceRead(r) => (OnDeviceRead(op, r), net)
      case CongestionRead(c) => (OnCongestionRead(op, c), net)
      case PolicyRead(cfg, failOpen) =>
        (op.(facts := op.facts.(cfg := cfg, failOpen := failOpen), pc := Assessing), net)
      case PolicyUnread => (Crash(op), net)
      case Assessed(c, s) => (OnVerdict(op, c, s), net)
      case AssessmentFailed =>
        (OnVerdict(op, if op.facts.failOpen then HIGH else LOW, op.facts.failOpen), net)
      case AllocateTry(f) => OnAllocate(op, net, f)
      case QosSettled(during) => (NextIteration(OnQosKnown(op), during), net)
      case QosTimedOut(now, raises, during) =>
        if op.alloc.session.None? then (op, net)
        else
          var (op', net') := OnQosTimedOut(op, net, now, raises);
          (NextIteration(op', during), net')
      case Wake(_, attachRaises, during) => OnWake(op, net, attachRaises, during)
      case Timeout(extendRaises, during) => OnTimeout(op, net, extendRaises, during)
      case ReleaseTry(f) => OnRelease(op, net, f)
  }

  /** A run of one operation: what it met, and the network as it stood each time. */
  datatype Turn = Turn(net: Net, input: Input)

  function Exec(op: Op, h: seq<Turn>): Op
    decreases |h|
  {
    if h == [] then op else Exec(Step(op, h[0].net, h[0].input).0, h[1..])
  }

  lemma {:induction false} ExecOneMore(op: Op, h: seq<Turn>, t: Turn)
    ensures Exec(op, h + [t]) == Step(Exec(op, h), t.net, t.input).0
    decreases |h|
  {
    hide Step;
    if h == [] {
      assert [t][1..] == [];
      assert Exec(Step(op, t.net, t.input).0, []) == Step(op, t.net, t.input).0;
      assert h + [t] == [t];
    } else {
      ExecOneMore(Step(op, h[0].net, h[0].input).0, h[1..], t);
      assert (h + [t])[1..] == h[1..] + [t];
    }
  }

  lemma ArrivalIs(op: Op, net: Net, s: Signal)
    requires !op.pc.Done?
    ensures Step(op, net, Arrives(s)) == (op.(inbox := Handle(op.inbox, s)), net)
  {
  }

  /** Escalating changes the action, the allocation, the trail, and whether the run has failed. */
  lemma EscalationKeeps(op: Op, net: Net, attachRaises: bool, r: Record)
    ensures var after := TryEscalate(op, net, attachRaises, r).0;
            after == op.(loop := op.loop.(action := after.loop.action), alloc := after.alloc, trail := after.trail,
                         crashed := after.crashed)
  {
  }

  lemma EscalationsKeep(op: Op, net: Net, attachRaises: bool)
    ensures var after := ProtectSuspended(op, net, attachRaises).0;
            after == op.(loop := op.loop.(action := after.loop.action), alloc := after.alloc, trail := after.trail,
                         crashed := after.crashed)
    ensures var after := ReassessCongestion(op, net, attachRaises).0;
            after == op.(loop := op.loop.(action := after.loop.action), alloc := after.alloc, trail := after.trail,
                         crashed := after.crashed)
  {
    hide TryEscalate, SuspensionPolicy, WantsSlice;
    var policy := SuspensionPolicy(op);
    var decided := Emit(op, Record(DECIDED, action := Some(policy.action),
                                   reachable := Some(op.inbox.reachable != Some(false)),
                                   rule := Some(policy.rule)));
    EscalationKeeps(decided, net, attachRaises, Record(ALLOCATED, rule := Some(policy.rule)));
    EscalationKeeps(op, net, attachRaises, Record(ALLOCATED, congestion := op.inbox.congestion));
  }

  /** What a wake notes of the difference it handles, and what handling it leaves alone. */
  lemma WakeNotes(op: Op, net: Net, attachRaises: bool)
    ensures var after := WakeBody(op, net, attachRaises).0;
            var noted := if SuspensionDiffers(op) then op.loop.(wasSuspended := op.inbox.suspended)
                         else if DeviceDiffers(op) then op.loop.(deviceLost := op.inbox.reachable == Some(false))
                         else op.loop.(known := op.inbox.congestion);
            after == op.(loop := noted.(action := after.loop.action), alloc := after.alloc, trail := after.trail,
                         crashed := after.crashed)
  {
    hide ProtectSuspended, ReassessCongestion;
    EscalationsKeep(op.(loop := op.loop.(wasSuspended := true)), net, attachRaises);
    EscalationsKeep(op.(loop := op.loop.(known := op.inbox.congestion)), net, attachRaises);
  }

  lemma TimeoutNotes(op: Op, net: Net, extendRaises: bool)
    ensures var after := TimeoutBody(op, net, extendRaises).0;
            after == op.(loop := Counted(op).loop, crashed := after.crashed,
                         books := op.books.(forgone := after.books.forgone))
  {
    hide ExtendQod;
  }
}
