/**
 * The workflow as it executes: signal handlers writing its fields, an allocation
 * changed in place, loops over whatever arrives next. Every method is proved
 * against the step machine of `Workflow`.
 */
module WorkflowRun {
  import opened Shared
  import opened Policy
  import opened Network
  import opened Activities
  import opened Workflow

  // ── A script of arrivals, one operation alone on its network ────────

  function RunAlone(op: Op, net: Net, script: seq<Input>): (Op, Net) {
    if script == [] then (op, net)
    else
      var (op', net') := RunAlone(op, net, script[..|script| - 1]);
      Step(op', net', script[|script| - 1])
  }

  lemma OneMore(op: Op, net: Net, script: seq<Input>, n: nat)
    requires n < |script|
    ensures RunAlone(op, net, script[..n + 1]) ==
            var (op', net') := RunAlone(op, net, script[..n]); Step(op', net', script[n])
  {
    hide Step;
    assert script[..n + 1][..n] == script[..n];
  }

  /** What the operation met: the claims about every run are about histories like this one. */
  function History(op: Op, net: Net, script: seq<Input>): (h: seq<Turn>)
    ensures |h| == |script|
  {
    if script == [] then []
    else
      var init := script[..|script| - 1];
      History(op, net, init) + [Turn(RunAlone(op, net, init).1, script[|script| - 1])]
  }

  lemma {:induction false} AloneIsARun(op: Op, net: Net, script: seq<Input>)
    ensures RunAlone(op, net, script).0 == Exec(op, History(op, net, script))
  {
    hide Step;
    if script != [] {
      var init := script[..|script| - 1];
      AloneIsARun(op, net, init);
      ExecOneMore(op, History(op, net, init), Turn(RunAlone(op, net, init).1, script[|script| - 1]));
    }
  }

  // ── What a step comes to, case by case ──────────────────────────────

  /** Neither the books nor the trail decide what is awaited. */
  lemma EnabledLooksAt(op: Op, seen: Op, i: Input)
    requires seen == op.(books := seen.books, crashed := seen.crashed, trail := seen.trail)
    ensures Enabled(op, i) == Enabled(seen, i)
  {
  }

  /** The guard at the top of the loop sees the signals that came in before it. */
  lemma NextIs(op: Op, during: seq<Signal>)
    ensures NextIteration(op, during) == NextIteration(op.(inbox := Deliver(op.inbox, during)), [])
  {
  }

  lemma ConfirmIs(op: Op, net: Net, i: Input)
    requires op.pc == Confirming && op.alloc.session.Some? && Enabled(op, i) && !i.Arrives?
    ensures i.QosSettled? || i.QosTimedOut?
    ensures i.QosSettled? ==> Step(op, net, i) == (NextIteration(OnQosKnown(op), i.during), net)
    ensures i.QosTimedOut? ==>
              var (op', net') := OnQosTimedOut(op, net, i.now, i.pollRaises);
              Step(op, net, i) == (NextIteration(op', i.during), net')
  {
  }

  lemma TakingSets(op: Op, r: Record)
    ensures forall slice, attachment ::
              var after := TakeSlice(op, slice, attachment, r);
              after.loop.action == QOD_AND_SLICE && after.crashed == op.crashed
  {
  }

  lemma ConfirmKeeps(op: Op, net: Net, i: Input)
    requires i.QosTimedOut? && op.alloc.session.Some?
    ensures var after := OnQosTimedOut(op, net, i.now, i.pollRaises).0;
            after.facts == op.facts && after.loop == op.loop && after.alloc == op.alloc
  {
  }

  lemma BodiesKeepFacts(op: Op, net: Net, raises: bool)
    ensures WakeBody(op, net, raises).0.facts == TimeoutBody(op, net, raises).0.facts == op.facts
  {
    hide WakeBody, TimeoutBody;
    WakeNotes(op, net, raises);
    TimeoutNotes(op, net, raises);
  }

  lemma StepIs(op: Op, net: Net, i: Input)
    requires op.pc == Waiting && Enabled(op, i) && !i.Arrives?
    ensures i.Wake? || i.Timeout?
    ensures i.Wake? ==> Step(op, net, i) == OnWake(op, net, i.attachRaises, i.during)
    ensures i.Timeout? ==> Step(op, net, i) == OnTimeout(op, net, i.extendRaises, i.during)
  {
  }

  /** An operation that has just been given what it asked for. */
  function Recorded(op: Op, a: Alloc): Op {
    Workflow.Emit(op, Record(ALLOCATED, action := Some(op.facts.action), session := a.session,
                             qos := Some(REQUESTED), slice := a.slice))
    .(alloc := a,
      inbox := op.inbox.(qosStatus := Some(REQUESTED)),
      loop := Loop(op.facts.action, op.inbox.congestion, 0, 0, false, false),
      pc := Confirming)
  }

  lemma RecordedIs(op: Op, a: Alloc)
    ensures var after := Recorded(op, a);
            && after.pc == Confirming && after.facts == op.facts && after.crashed == op.crashed && after.alloc == a
            && after.loop == Loop(op.facts.action, op.inbox.congestion, 0, 0, false, false)
  {
  }

  predicate AfterAttempt(op: Op, outcome: AllocateOutcome, after: Op)
    requires op.pc.Allocating?
  {
    match outcome
    case Allocated(a) => a.session.Some? && after == Recorded(op, a)
    case Refused => after == Crash(op)
    case Raised(orphan) =>
      var orphans := if orphan.Some? then op.books.orphans + {orphan.value} else op.books.orphans;
      var op' := op.(books := op.books.(orphans := orphans));
      var failed := op.pc.failedAttempts + 1;
      after == if failed < ALLOCATE_ATTEMPTS then op'.(pc := Allocating(failed)) else Crash(op')
  }

  lemma AllocateIs(op: Op, net: Net, i: Input)
    requires op.pc.Allocating? && Enabled(op, i) && !i.Arrives?
    ensures i.AllocateTry? && Step(op, net, i) == OnAllocate(op, net, i.allocFaults)
  {
  }

  lemma AttemptIs(op: Op, net: Net, f: AllocateFaults)
    requires op.pc.Allocating?
    ensures var (net', outcome) :=
              Allocate(net, op.device, op.profile, op.facts.action, op.expected + GRACE_SECONDS, f);
            OnAllocate(op, net, f).1 == net' && AfterAttempt(op, outcome, OnAllocate(op, net, f).0)
  {
    assert op.books.orphans + {} == op.books.orphans;
  }

  lemma NothingYet(op: Op, net: Net)
    ensures RunAlone(op, net, []) == (op, net)
  {
  }

  lemma BeforeIs(op: Op, net: Net, i: Input)
    requires Enabled(op, i) && !i.Arrives?
    ensures op.pc.CheckingDevice? ==> i.DeviceRead? && Step(op, net, i) == (OnDeviceRead(op, i.reachable), net)
    ensures op.pc.QueryingCongestion? ==> i.CongestionRead? && Step(op, net, i) == (OnCongestionRead(op, i.level), net)
    ensures op.pc.ReadingPolicy? ==> i.PolicyRead? || i.PolicyUnread?
    ensures op.pc.ReadingPolicy? && i.PolicyRead? ==>
              Step(op, net, i) == (op.(facts := op.facts.(cfg := i.cfg, failOpen := i.failOpen), pc := Assessing), net)
    ensures op.pc.ReadingPolicy? && i.PolicyUnread? ==> Step(op, net, i) == (Crash(op), net)
    ensures op.pc.Assessing? ==> i.Assessed? || i.AssessmentFailed?
    ensures op.pc.Assessing? && i.Assessed? ==> Step(op, net, i) == (OnVerdict(op, i.criticality, i.safety), net)
    ensures op.pc.Assessing? && i.AssessmentFailed? ==>
              Step(op, net, i) == (OnVerdict(op, if op.facts.failOpen then HIGH else LOW, op.facts.failOpen), net)
  {
  }

  lemma FailedIsReleased(op: Op)
    requires op.crashed
    ensures NextIteration(op, []) == StartRelease(op)
  {
  }

  /** What a release attempt leaves in the books and on the trail. */
  lemma ReleaseRecords(op: Op, net: Net, f: ReleaseFaults)
    requires op.pc.Releasing?
    ensures var (net', r) := Activities.Release(net, op.alloc, f);
            var after := OnRelease(op, net, f).0;
            && OnRelease(op, net, f).1 == net'
            && after == op.(pc := after.pc, crashed := after.crashed, books := after.books, trail := after.trail)
            && after.books == op.books.(sessionGone := op.books.sessionGone || r.qod,
                                        attachmentGone := op.books.attachmentGone || r.slice)
            && after.trail == op.trail
                              + if r.complete
                                then [Record(RELEASED, session := op.alloc.session, slice := op.alloc.slice,
                                             qos := if r.qod then Some(UNAVAILABLE) else None)]
                                else []
  {
    hide Activities.Release;
  }

  lemma ReleaseGoes(op: Op, net: Net, f: ReleaseFaults)
    requires op.pc.Releasing?
    ensures var after := OnRelease(op, net, f).0;
            && after.facts == op.facts && after.loop == op.loop && after.alloc == op.alloc
            && (if Activities.Release(net, op.alloc, f).1.complete || op.pc.failedAttempts + 1 >= RELEASE_ATTEMPTS
                then after.pc.Done? else after.pc == Releasing(op.pc.failedAttempts + 1))
  {
  }

  lemma ReleaseIs(op: Op, net: Net, i: Input)
    requires op.pc.Releasing? && Enabled(op, i) && !i.Arrives?
    ensures i.ReleaseTry? && Step(op, net, i) == OnRelease(op, net, i.releaseFaults)
  {
  }

  // ── The workflow object ─────────────────────────────────────────────

  class Allocation {
    var qodSessionId: Option<string>
    var sliceId: Option<string>
    var attachmentId: Option<string>

    constructor ()
      ensures View() == NOTHING
    {
      qodSessionId, sliceId, attachmentId := None, None, None;
    }

    function View(): Alloc reads this { Alloc(qodSessionId, sliceId, attachmentId) }
  }

  class CriticalOperationWorkflow {
    const activities: NetworkActivities
    const device: string
    const expected: int
    var completed: bool
    var suspended: bool
    var qosStatus: Option<QosStatus>
    var latestCongestion: Option<CongestionLevel>
    var deviceReachable: Option<bool>
    var trail: seq<Record>
    ghost var books: Books

    constructor (activities: NetworkActivities, device: string, reportedDuration: Option<int>)
      ensures this.activities == activities && this.device == device
      ensures reportedDuration == None || reportedDuration == Some(0) ==> expected == 60
      ensures reportedDuration.Some? && reportedDuration != Some(0) ==> expected == reportedDuration.value
      ensures Signals() == Inbox(false, false, None, None, None)
      ensures trail == [] && books == Books({}, false, false, 0)
    {
      this.activities, this.device, expected := activities, device, ExpectedDuration(reportedDuration);
      completed, suspended, qosStatus, latestCongestion, deviceReachable := false, false, None, None, None;
      trail, books := [], Books({}, false, false, 0);
    }

    function Signals(): Inbox reads this {
      Inbox(completed, suspended, qosStatus, latestCongestion, deviceReachable)
    }

    /** The object and its allocation are in the state `op` describes. */
    ghost predicate Reflects(op: Op, allocation: Allocation) reads this, allocation {
      && op.device == device && op.profile == activities.qosProfile && op.expected == expected
      && op.inbox == Signals() && op.alloc == allocation.View()
      && op.books == books && op.trail == trail
    }

    // ── Signals ─────────────────────────────────────────────────────────

    method OperationCompleted()
      modifies `completed
      ensures Signals() == Handle(old(Signals()), Signal.OperationCompleted)
    { completed := true; }

    method OperationSuspended()
      modifies `suspended
      ensures Signals() == Handle(old(Signals()), Signal.OperationSuspended)
    { suspended := true; }

    method OperationResumed()
      modifies `suspended
      ensures Signals() == Handle(old(Signals()), Signal.OperationResumed)
    { suspended := false; }

    method QodStatusChanged(status: Option<QosStatus>)
      modifies `qosStatus
      ensures Signals() == Handle(old(Signals()), Signal.QodStatusChanged(status))
    { qosStatus := status; }

    method CongestionUpdated(level: Option<CongestionLevel>)
      modifies `latestCongestion
      ensures Signals() == Handle(old(Signals()), Signal.CongestionUpdated(level))
    { latestCongestion := level; }

    method DeviceStatusChanged(reachable: Option<bool>)
      modifies `deviceReachable
      ensures Signals() == Handle(old(Signals()), Signal.DeviceStatusChanged(reachable))
    { deviceReachable := reachable; }

    method Receive(s: Signal)
      modifies `completed, `suspended, `qosStatus, `latestCongestion, `deviceReachable
      ensures Signals() == Handle(old(Signals()), s)
    {
      match s
      case OperationCompleted => OperationCompleted();
      case OperationSuspended => OperationSuspended();
      case OperationResumed => OperationResumed();
      case QodStatusChanged(status) => QodStatusChanged(status);
      case CongestionUpdated(level) => CongestionUpdated(level);
      case DeviceStatusChanged(reachable) => DeviceStatusChanged(reachable);
    }

    /** Handlers run in the order the signals came in. */
    method ReceiveAll(ss: seq<Signal>)
      modifies `completed, `suspended, `qosStatus, `latestCongestion, `deviceReachable
      ensures Signals() == Deliver(old(Signals()), ss)
    {
      assert ss[..0] == [];
      for k := 0 to |ss|
        invariant Signals() == Deliver(old(Signals()), ss[..k])
      {
        assert ss[..k + 1][..k] == ss[..k];
        Receive(ss[k]);
      }
      assert ss[..|ss|] == ss;
    }

    method Emit(r: Record)
      modifies `trail
      ensures trail == old(trail) + [r]
    {
      trail := trail + [r];
    }

    // ── Escalation ──────────────────────────────────────────────────────

    method RecordSlice(allocation: Allocation, slice: string, attachment: string, r: Record, ghost op: Op)
      requires Reflects(op, allocation)
      modifies `trail, allocation
      ensures Reflects(TakeSlice(op, slice, attachment, r), allocation)
    {
      allocation.sliceId := Some(slice);
      allocation.attachmentId := Some(attachment);
      Emit(r.(action := Some(QOD_AND_SLICE), session := allocation.qodSessionId, slice := allocation.sliceId));
    }

    /** A slice, if there is one and attaching does not raise. */
    method AttachSlice(allocation: Allocation, action: NetworkAction, attachRaises: bool, r: Record, ghost op: Op)
      returns (inForce: NetworkAction, raised: bool)
      requires activities.provider.Valid()
      requires Reflects(op, allocation) && op.loop.action == action && !op.crashed
      modifies `trail, allocation, activities.provider.Repr()
      ensures activities.provider.Valid() && activities.provider.Repr() == old(activities.provider.Repr())
      ensures var (after, net) := TryEscalate(op, old(activities.provider.View()), attachRaises, r);
              Reflects(after, allocation) && activities.provider.View() == net
              && inForce == after.loop.action && raised == after.crashed
    {
      hide Escalate, TakeSlice;
      TakingSets(op, r);
      inForce, raised := action, false;
      var outcome := activities.EscalateToSlice(device, attachRaises);
      match outcome
      case SliceUnavailable =>
      case EscalateRaised => raised := true;
      case Attached(slice, attachment) =>
        RecordSlice(allocation, slice, attachment, r, op);
        inForce := QOD_AND_SLICE;
    }

    method ProtectSuspended(allocation: Allocation, action: NetworkAction, cfg: PolicyConfig, attachRaises: bool,
                            ghost op: Op)
      returns (inForce: NetworkAction, raised: bool)
      requires activities.provider.Valid()
      requires Reflects(op, allocation) && op.loop.action == action && op.facts.cfg == cfg && !op.crashed
      modifies `trail, allocation, activities.provider.Repr()
      ensures activities.provider.Valid() && activities.provider.Repr() == old(activities.provider.Repr())
      ensures var (after, net) := Workflow.ProtectSuspended(op, old(activities.provider.View()), attachRaises);
              Reflects(after, allocation) && activities.provider.View() == net
              && inForce == after.loop.action && raised == after.crashed
    {
      var congestion := if latestCongestion.Some? then latestCongestion.value else Low;
      var reachable := deviceReachable != Some(false);
      var policy := JudgeSuspended(congestion, reachable, cfg);
      var decision := Record(DECIDED, action := Some(policy.action), reachable := Some(reachable),
                             rule := Some(policy.rule));
      Emit(decision);
      if allocation.sliceId.Some? || policy.action != QOD_AND_SLICE { return action, false; }
      inForce, raised := AttachSlice(allocation, action, attachRaises, Record(ALLOCATED, rule := Some(policy.rule)),
                                     Workflow.Emit(op, decision));
    }

    method ReassessCongestion(allocation: Allocation, action: NetworkAction, criticality: Criticality, safety: bool,
                              congestion: Option<CongestionLevel>, cfg: PolicyConfig, attachRaises: bool, ghost op: Op)
      returns (inForce: NetworkAction, raised: bool)
      requires activities.provider.Valid()
      requires Reflects(op, allocation) && op.loop.action == action && !op.crashed
      requires op.facts.cfg == cfg && op.facts.criticality == criticality && op.facts.safety == safety
      requires congestion == latestCongestion
      modifies `trail, allocation, activities.provider.Repr()
      ensures activities.provider.Valid() && activities.provider.Repr() == old(activities.provider.Repr())
      ensures var (after, net) := Workflow.ReassessCongestion(op, old(activities.provider.View()), attachRaises);
              Reflects(after, allocation) && activities.provider.View() == net
              && inForce == after.loop.action && raised == after.crashed
    {
      if congestion.None? || allocation.sliceId.Some? { return action, false; }
      var wantsSlice := action == QOD_AND_SLICE;
      if !wantsSlice {
        var policy := Policy.Judge(criticality, congestion.value, safety, cfg);
        wantsSlice := policy.action == QOD_AND_SLICE;
      }
      if !wantsSlice { return action, false; }
      inForce, raised := AttachSlice(allocation, action, attachRaises, Record(ALLOCATED, congestion := congestion), op);
    }

    // ── Waiting ─────────────────────────────────────────────────────────

    /** What a wait condition can see. */
    function Seen(pc: Pc, facts: Facts, a: Alloc, loop: Loop): Op reads this {
      Op(device, activities.qosProfile, expected, pc, Signals(), facts, a, loop, Books({}, false, false, 0), false, [])
    }

    /** Signals are handled as they come, until what the workflow awaits is next. */
    method Wait(allocation: Allocation, pc: Pc, facts: Facts, loop: Loop, script: seq<Input>, n: nat,
                ghost op: Op, ghost start: (Op, Net))
      returns (m: nat, ghost op': Op)
      requires n <= |script| && !pc.Done?
      requires Reflects(op, allocation) && op.pc == pc && op.facts == facts && op.loop == loop
      requires (op, activities.provider.View()) == RunAlone(start.0, start.1, script[..n])
      modifies `completed, `suspended, `qosStatus, `latestCongestion, `deviceReachable
      ensures n <= m <= |script|
      ensures Reflects(op', allocation) && op' == op.(inbox := Signals())
      ensures (op', activities.provider.View()) == RunAlone(start.0, start.1, script[..m])
      ensures m < |script| ==> Enabled(op', script[m]) && !script[m].Arrives?
    {
      hide RunAlone, WakeAwaits, Awaited, Extendable, Counted;
      m, op' := n, op;
      while m < |script|
        invariant n <= m <= |script|
        invariant Reflects(op', allocation) && op' == op.(inbox := Signals())
        invariant (op', activities.provider.View()) == RunAlone(start.0, start.1, script[..m])
      {
        OneMore(start.0, start.1, script, m);
        if script[m].Arrives? {
          ArrivalIs(op', activities.provider.View(), script[m].signal);
          Receive(script[m].signal);
          op' := op'.(inbox := Signals());
        } else {
          var seen := Seen(pc, facts, allocation.View(), loop);
          EnabledLooksAt(op', seen, script[m]);
          if Enabled(seen, script[m]) { return; }
        }
        m := m + 1;
      }
    }

    // ── Confirming the session ──────────────────────────────────────────

    /** The fallback when no callback came. */
    method PollForQos(allocation: Allocation, session: string, now: int, pollRaises: bool, ghost op: Op)
      returns (raised: bool)
      requires activities.provider.Valid()
      requires Reflects(op, allocation) && op.alloc.session == Some(session) && !op.crashed
      modifies `qosStatus, `trail, activities.provider.Repr()
      ensures activities.provider.Valid() && activities.provider.Repr() == old(activities.provider.Repr())
      ensures var (after, net) := OnQosTimedOut(op, old(activities.provider.View()), now, pollRaises);
              Reflects(after, allocation) && activities.provider.View() == net && raised == after.crashed
    {
      hide PollQod;
      var status := activities.PollQodSession(session, now, pollRaises);
      if status.None? { return true; }
      qosStatus := status;
      Emit(Record(QOS_STATUS_CHANGED, session := Some(session), qos := qosStatus));
      raised := false;
    }

    method ConfirmQosAvailable(allocation: Allocation, facts: Facts, loop: Loop, script: seq<Input>, n: nat,
                               ghost op: Op, ghost start: (Op, Net))
      returns (m: nat, raised: bool, pending: bool, ghost op': Op)
      requires n <= |script| && activities.provider.Valid()
      requires Reflects(op, allocation) && op.pc == Confirming && op.facts == facts && op.loop == loop && !op.crashed
      requires op.alloc.session.Some?
      requires (op, activities.provider.View()) == RunAlone(start.0, start.1, script[..n])
      modifies this, activities.provider.Repr()
      ensures n <= m <= |script| && (pending ==> m == |script|)
      ensures activities.provider.Valid() && activities.provider.Repr() == old(activities.provider.Repr())
      ensures Reflects(op', allocation) && op'.facts == facts && op'.loop == loop && raised == op'.crashed
      ensures op'.alloc == op.alloc
      ensures (if pending then op' else NextIteration(op', []), activities.provider.View())
              == RunAlone(start.0, start.1, script[..m])
      ensures pending ==> op'.pc == Confirming
    {
      hide MockNetworkProvider.View, MockNetworkProvider.Valid, RunAlone, Step, NextIteration, PollQod,
           OnQosTimedOut, Enabled;
      m, op' := Wait(allocation, Confirming, facts, loop, script, n, op, start);
      raised, pending := false, m == |script|;
      if pending { return; }
      OneMore(start.0, start.1, script, m);
      ConfirmIs(op', activities.provider.View(), script[m]);
      var session := allocation.qodSessionId;
      match script[m] {
      case QosSettled(during) =>
        Emit(Record(QOS_STATUS_CHANGED, session := session, qos := qosStatus));
        NextIs(OnQosKnown(op'), during);
        op' := OnQosKnown(op');
        ReceiveAll(during);
        op' := op'.(inbox := Signals());
      case QosTimedOut(now, pollRaises, during) =>
        ghost var polled := OnQosTimedOut(op', activities.provider.View(), now, pollRaises).0;
        ConfirmKeeps(op', activities.provider.View(), script[m]);
        raised := PollForQos(allocation, session.value, now, pollRaises, op');
        NextIs(polled, during);
        op' := polled;
        ReceiveAll(during);
        op' := op'.(inbox := Signals());
      }
      m := m + 1;
    }

    // ── The monitor loop ────────────────────────────────────────────────

    /** One difference a wake found, handled. */
    method HandleWake(allocation: Allocation, facts: Facts, loop: Loop, attachRaises: bool, ghost op: Op)
      returns (loop': Loop, raised: bool)
      requires activities.provider.Valid()
      requires Reflects(op, allocation) && op.facts == facts && op.loop == loop && !op.crashed
      modifies `trail, allocation, activities.provider.Repr()
      ensures activities.provider.Valid() && activities.provider.Repr() == old(activities.provider.Repr())
      ensures var (after, net) := WakeBody(op, old(activities.provider.View()), attachRaises);
              Reflects(after, allocation) && activities.provider.View() == net
              && loop' == after.loop && raised == after.crashed
    {
      hide Workflow.ProtectSuspended, Workflow.ReassessCongestion;
      loop', raised := loop, false;
      var inForce;
      if suspended && !loop.wasSuspended {
        loop' := loop.(wasSuspended := true);
        EscalationsKeep(op.(loop := loop'), activities.provider.View(), attachRaises);
        inForce, raised := ProtectSuspended(allocation, loop.action, facts.cfg, attachRaises, op.(loop := loop'));
        loop' := loop'.(action := inForce);
        return;
      }
      if !suspended && loop.wasSuspended { return loop.(wasSuspended := false), false; }
      if deviceReachable == Some(false) && !loop.deviceLost {
        Emit(Record(DEVICE_CHECKED, reachable := Some(false)));
        return loop.(deviceLost := true), false;
      }
      if deviceReachable != Some(false) && loop.deviceLost { return loop.(deviceLost := false), false; }
      loop' := loop.(known := latestCongestion);
      EscalationsKeep(op.(loop := loop'), activities.provider.View(), attachRaises);
      inForce, raised := ReassessCongestion(allocation, loop.action, facts.criticality, facts.safety, loop'.known,
                                            facts.cfg, attachRaises, op.(loop := loop'));
      loop' := loop'.(action := inForce);
    }

    /** A full chunk went by: it counts against one budget or the other. */
    method CountChunk(allocation: Allocation, loop: Loop, ghost op: Op) returns (loop': Loop, extendable: bool)
      requires Reflects(op, allocation) && op.loop == loop
      ensures Counted(op) == op.(loop := loop') && extendable == Extendable(Counted(op))
    {
      var chunk := if expected > MIN_CHUNK_SECONDS then expected else MIN_CHUNK_SECONDS;
      loop' := loop;
      if suspended {
        loop' := loop'.(suspendedFor := loop.suspendedFor + chunk);
      } else {
        loop' := loop'.(waited := loop.waited + chunk);
      }
      extendable := allocation.qodSessionId.Some? && !loop'.deviceLost
        && loop'.waited < expected * MAX_OPERATION_MULTIPLIER && loop'.suspendedFor < SUSPENDED_MAX_SECONDS;
    }

    method HandleTimeout(allocation: Allocation, loop: Loop, extendRaises: bool, ghost op: Op)
      returns (loop': Loop, raised: bool)
      requires activities.provider.Valid()
      requires Reflects(op, allocation) && op.loop == loop && !op.crashed
      modifies `books, activities.provider.Repr()
      ensures activities.provider.Valid() && activities.provider.Repr() == old(activities.provider.Repr())
      ensures var (after, net) := TimeoutBody(op, old(activities.provider.View()), extendRaises);
              Reflects(after, allocation) && activities.provider.View() == net
              && loop' == after.loop && raised == after.crashed
    {
      hide MockNetworkProvider.View, MockNetworkProvider.Valid, ExtendQod, Counted;
      var chunk := if expected > MIN_CHUNK_SECONDS then expected else MIN_CHUNK_SECONDS;
      var extendable;
      loop', extendable := CountChunk(allocation, loop, op);
      raised := false;
      var ok := false;
      if extendable {
        ok := activities.ExtendQodSession(allocation.qodSessionId.value, chunk, extendRaises);
        raised := !ok;
      }
      if !ok { books := books.(forgone := books.forgone + chunk); }
    }

    /** What follows the wait: the body of the `try`, or of its `except`. */
    method AfterWait(allocation: Allocation, facts: Facts, loop: Loop, input: Input, ghost op: Op)
      returns (loop': Loop, raised: bool, ghost op': Op)
      requires activities.provider.Valid()
      requires Reflects(op, allocation) && op.facts == facts && op.loop == loop && !op.crashed
      requires op.pc == Waiting && Enabled(op, input) && !input.Arrives?
      modifies this, allocation, activities.provider.Repr()
      ensures activities.provider.Valid() && activities.provider.Repr() == old(activities.provider.Repr())
      ensures Reflects(op', allocation) && op'.facts == facts && op'.loop == loop' && raised == op'.crashed
      ensures (NextIteration(op', []), activities.provider.View()) == Step(op, old(activities.provider.View()), input)
    {
      hide MockNetworkProvider.View, MockNetworkProvider.Valid, Step, StartRelease, WakeBody, TimeoutBody, Enabled;
      StepIs(op, activities.provider.View(), input);
      loop', raised, op' := loop, false, op;
      match input
      case Wake(_, attachRaises, during) =>
        if completed { return; }
        BodiesKeepFacts(op, activities.provider.View(), attachRaises);
        op' := WakeBody(op, activities.provider.View(), attachRaises).0;
        loop', raised := HandleWake(allocation, facts, loop, attachRaises, op);
        NextIs(op', during);
        ReceiveAll(during);
        op' := op'.(inbox := Signals());
      case Timeout(extendRaises, during) =>
        BodiesKeepFacts(op, activities.provider.View(), extendRaises);
        op' := TimeoutBody(op, activities.provider.View(), extendRaises).0;
        loop', raised := HandleTimeout(allocation, loop, extendRaises, op);
        NextIs(op', during);
        ReceiveAll(during);
        op' := op'.(inbox := Signals());
    }

    method Monitor(allocation: Allocation, facts: Facts, baseline: Option<CongestionLevel>, script: seq<Input>, n: nat,
                   ghost op: Op, ghost start: (Op, Net))
      returns (m: nat, raised: bool, pending: bool, loop: Loop, ghost op': Op)
      requires n <= |script| && activities.provider.Valid()
      requires Reflects(op, allocation) && op.facts == facts && !op.crashed
      requires op.loop == Loop(facts.action, baseline, 0, 0, false, false)
      requires (NextIteration(op, []), activities.provider.View()) == RunAlone(start.0, start.1, script[..n])
      modifies this, allocation, activities.provider.Repr()
      ensures n <= m <= |script| && (pending ==> m == |script|)
      ensures activities.provider.Valid() && activities.provider.Repr() == old(activities.provider.Repr())
      ensures Reflects(op', allocation) && op'.facts == facts && op'.loop == loop && raised == op'.crashed
      ensures pending ==> op'.pc == Waiting
      ensures (if pending then op' else StartRelease(op'), activities.provider.View())
              == RunAlone(start.0, start.1, script[..m])
    {
      hide MockNetworkProvider.View, MockNetworkProvider.Valid, RunAlone, Step, StartRelease, Enabled;
      loop := Loop(facts.action, baseline, 0, 0, false, false);
      m, raised, pending, op' := n, false, false, op;
      while !raised && !completed && loop.waited < expected * MAX_OPERATION_MULTIPLIER
            && loop.suspendedFor < SUSPENDED_MAX_SECONDS
        invariant n <= m <= |script| && !pending
        invariant activities.provider.Valid() && activities.provider.Repr() == old(activities.provider.Repr())
        invariant Reflects(op', allocation) && op'.facts == facts && op'.loop == loop && raised == op'.crashed
        invariant (NextIteration(op', []), activities.provider.View()) == RunAlone(start.0, start.1, script[..m])
        decreases |script| - m
      {
        assert NextIteration(op', []) == op'.(pc := Waiting);
        op' := op'.(pc := Waiting);
        m, op' := Wait(allocation, Waiting, facts, loop, script, m, op', start);
        if m == |script| {
          pending := true;
          return;
        }
        OneMore(start.0, start.1, script, m);
        loop, raised, op' := AfterWait(allocation, facts, loop, script[m], op');
        m := m + 1;
      }
    }

    // ── Allocating and releasing ────────────────────────────────────────

    /** The dict the activity returned, and what follows before the next await. */
    method RecordAllocation(allocation: Allocation, facts: Facts, a: Alloc, ghost op: Op)
      returns (baseline: Option<CongestionLevel>)
      requires Reflects(op, allocation) && op.facts == facts
      modifies `qosStatus, `trail, allocation
      ensures Reflects(Recorded(op, a), allocation)
      ensures baseline == op.inbox.congestion
    {
      allocation.qodSessionId, allocation.sliceId, allocation.attachmentId := a.session, a.slice, a.attachment;
      qosStatus := Some(REQUESTED);
      baseline := latestCongestion;
      Emit(Record(ALLOCATED, action := Some(facts.action), session := allocation.qodSessionId,
                  qos := Some(REQUESTED), slice := allocation.sliceId));
    }

    /** One attempt. `settled` when there is no other to come. */
    method TryAllocate(allocation: Allocation, facts: Facts, failed: nat, faults: AllocateFaults, ghost op: Op)
      returns (settled: bool, raised: bool, baseline: Option<CongestionLevel>, ghost op': Op)
      requires activities.provider.Valid() && Reflects(op, allocation)
      requires op.pc == Allocating(failed) && op.facts == facts && op.loop == FRESH_LOOP && !op.crashed
      requires failed < ALLOCATE_ATTEMPTS && op.alloc == NOTHING
      modifies this, allocation, activities.provider.Repr()
      ensures activities.provider.Valid() && fresh(activities.provider.Repr() - old(activities.provider.Repr()))
      ensures Reflects(op', allocation) && op'.facts == facts && raised == op'.crashed && (raised ==> settled)
      ensures settled && !raised ==>
                && op'.pc == Confirming && op'.alloc.session.Some?
                && op'.loop == Loop(facts.action, baseline, 0, 0, false, false)
      ensures !settled ==> failed + 1 < ALLOCATE_ATTEMPTS && op'.pc == Allocating(failed + 1)
      ensures !settled || raised ==> op'.loop == FRESH_LOOP && op'.alloc == NOTHING
      ensures (if raised then StartRelease(op') else op', activities.provider.View())
              == OnAllocate(op, old(activities.provider.View()), faults)
    {
      hide MockNetworkProvider.View, MockNetworkProvider.Valid, Allocate, OnAllocate, Recorded, StartRelease;
      AttemptIs(op, activities.provider.View(), faults);
      settled, raised, baseline, op' := true, false, None, op;
      var outcome := activities.AllocateAttempt(device, facts.action, expected + GRACE_SECONDS, faults);
      match outcome
      case Allocated(a) =>
        RecordedIs(op, a);
        op' := Recorded(op, a);
        baseline := RecordAllocation(allocation, facts, a, op);
      case Refused =>
        raised := true;
        op' := op.(crashed := true);
      case Raised(orphan) =>
        if orphan.Some? { books := books.(orphans := books.orphans + {orphan.value}); }
        op' := op.(books := books);
        if failed + 1 < ALLOCATE_ATTEMPTS {
          settled := false;
          op' := op'.(pc := Allocating(failed + 1));
        } else {
          raised := true;
          op' := op'.(crashed := true);
        }
    }

    /** Three attempts, each of which may leave an orphan behind. */
    method AllocateWithRetry(allocation: Allocation, facts: Facts, script: seq<Input>, n: nat,
                             ghost op: Op, ghost start: (Op, Net))
      returns (m: nat, raised: bool, pending: bool, baseline: Option<CongestionLevel>, ghost op': Op)
      requires n <= |script| && activities.provider.Valid()
      requires Reflects(op, allocation) && op.pc == Allocating(0) && op.facts == facts
      requires op.loop == FRESH_LOOP && !op.crashed
      requires op.alloc == NOTHING
      requires (op, activities.provider.View()) == RunAlone(start.0, start.1, script[..n])
      modifies this, allocation, activities.provider.Repr()
      ensures n <= m <= |script| && (pending ==> m == |script|)
      ensures activities.provider.Valid() && fresh(activities.provider.Repr() - old(activities.provider.Repr()))
      ensures Reflects(op', allocation) && op'.facts == facts && raised == op'.crashed
      ensures (pending ==> op'.pc.Allocating? && !raised) && (raised ==> op'.loop == FRESH_LOOP)
      ensures !pending && !raised ==>
                op'.pc == Confirming && op'.alloc.session.Some?
                && op'.loop == Loop(facts.action, baseline, 0, 0, false, false)
      ensures (if raised then StartRelease(op') else op', activities.provider.View())
              == RunAlone(start.0, start.1, script[..m])
    {
      hide MockNetworkProvider.View, MockNetworkProvider.Valid, RunAlone, Step, OnAllocate, StartRelease, Enabled;
      m, raised, pending, baseline, op' := n, false, false, None, op;
      var failed: nat, settled := 0, false;
      while !settled
        invariant n <= m <= |script| && (raised ==> settled)
        invariant activities.provider.Valid() && fresh(activities.provider.Repr() - old(activities.provider.Repr()))
        invariant Reflects(op', allocation) && op'.facts == facts && raised == op'.crashed
        invariant !settled || raised ==> op'.loop == FRESH_LOOP && op'.alloc == NOTHING
        invariant !settled ==> failed < ALLOCATE_ATTEMPTS && op'.pc == Allocating(failed)
        invariant settled && !raised ==>
                    op'.pc == Confirming && op'.alloc.session.Some?
                    && op'.loop == Loop(facts.action, baseline, 0, 0, false, false)
        invariant (if raised then StartRelease(op') else op', activities.provider.View())
                  == RunAlone(start.0, start.1, script[..m])
        decreases !settled, |script| - m
      {
        m, op' := Wait(allocation, Allocating(failed), facts, FRESH_LOOP, script, m, op', start);
        if m == |script| {
          pending := true;
          return;
        }
        OneMore(start.0, start.1, script, m);
        AllocateIs(op', activities.provider.View(), script[m]);
        settled, raised, baseline, op' := TryAllocate(allocation, facts, failed, script[m].allocFaults, op');
        failed := failed + 1;
        m := m + 1;
      }
    }

    /** One attempt at the release activity, and the record of one that gave everything back. */
    method TryRelease(allocation: Allocation, faults: ReleaseFaults, ghost op: Op) returns (complete: bool)
      requires activities.provider.Valid() && Reflects(op, allocation) && op.pc.Releasing?
      modifies `books, `trail, activities.provider.Repr()
      ensures activities.provider.Valid() && activities.provider.Repr() <= old(activities.provider.Repr())
      ensures var (after, net) := OnRelease(op, old(activities.provider.View()), faults);
              Reflects(after, allocation) && activities.provider.View() == net
      ensures complete == Activities.Release(old(activities.provider.View()), op.alloc, faults).1.complete
    {
      hide MockNetworkProvider.View, MockNetworkProvider.Valid, Activities.Release, OnRelease;
      ReleaseRecords(op, activities.provider.View(), faults);
      var released := activities.ReleaseAttempt(allocation.View(), faults);
      books := books.(sessionGone := books.sessionGone || released.qod,
                      attachmentGone := books.attachmentGone || released.slice);
      complete := released.complete;
      if complete {
        Emit(Record(RELEASED, session := allocation.qodSessionId, slice := allocation.sliceId,
                    qos := if released.qod then Some(UNAVAILABLE) else None));
      }
    }

    /** Waits for the next attempt, if one is to come, and makes it. */
    method ReleaseOnce(allocation: Allocation, facts: Facts, loop: Loop, failed: nat, script: seq<Input>, n: nat,
                       ghost op: Op, ghost start: (Op, Net))
      returns (m: nat, pending: bool, complete: bool, ghost op': Op)
      requires n <= |script| && activities.provider.Valid()
      requires Reflects(op, allocation) && op.facts == facts && op.loop == loop
      requires op.pc == Releasing(failed) && failed < RELEASE_ATTEMPTS
      requires (op, activities.provider.View()) == RunAlone(start.0, start.1, script[..n])
      modifies this, activities.provider.Repr()
      ensures n <= m <= |script| && (pending ==> m == |script|)
      ensures activities.provider.Valid() && activities.provider.Repr() <= old(activities.provider.Repr())
      ensures Reflects(op', allocation) && op'.facts == facts && op'.loop == loop
      ensures if pending then op'.pc == Releasing(failed)
              else if complete || failed + 1 == RELEASE_ATTEMPTS then op'.pc.Done?
              else op'.pc == Releasing(failed + 1)
      ensures (op', activities.provider.View()) == RunAlone(start.0, start.1, script[..m])
    {
      hide MockNetworkProvider.View, MockNetworkProvider.Valid, RunAlone, Step, Activities.Release, OnRelease, Enabled;
      m, op' := Wait(allocation, Releasing(failed), facts, loop, script, n, op, start);
      pending, complete := m == |script|, false;
      if pending { return; }
      OneMore(start.0, start.1, script, m);
      ReleaseIs(op', activities.provider.View(), script[m]);
      var faults := script[m].releaseFaults;
      m := m + 1;
      ghost var tried := OnRelease(op', activities.provider.View(), faults).0;
      ReleaseGoes(op', activities.provider.View(), faults);
      complete := TryRelease(allocation, faults, op');
      op' := tried;
    }

    /** The `finally` block: ten attempts, the two resources given back independently. */
    method Release(allocation: Allocation, facts: Facts, loop: Loop, script: seq<Input>, n: nat,
                   ghost op: Op, ghost start: (Op, Net))
      returns (m: nat, pending: bool, ghost op': Op)
      requires n <= |script| && activities.provider.Valid()
      requires Reflects(op, allocation) && op.facts == facts && op.loop == loop
      requires (StartRelease(op), activities.provider.View()) == RunAlone(start.0, start.1, script[..n])
      modifies this, activities.provider.Repr()
      ensures n <= m <= |script| && (pending ==> m == |script|)
      ensures activities.provider.Valid() && activities.provider.Repr() <= old(activities.provider.Repr())
      ensures Reflects(op', allocation) && (pending <==> !op'.pc.Done?)
      ensures (op', activities.provider.View()) == RunAlone(start.0, start.1, script[..m])
    {
      hide MockNetworkProvider.View, MockNetworkProvider.Valid, RunAlone;
      m, pending, op' := n, false, StartRelease(op);
      if allocation.qodSessionId.None? && allocation.attachmentId.None? { return; }
      var failed: nat, complete := 0, false;
      while !complete && failed < RELEASE_ATTEMPTS
        invariant n <= m <= |script| && failed <= RELEASE_ATTEMPTS
        invariant activities.provider.Valid() && activities.provider.Repr() <= old(activities.provider.Repr())
        invariant Reflects(op', allocation) && op'.facts == facts && op'.loop == loop
        invariant if complete || failed == RELEASE_ATTEMPTS then op'.pc.Done? else op'.pc == Releasing(failed)
        invariant (op', activities.provider.View()) == RunAlone(start.0, start.1, script[..m])
      {
        m, pending, complete, op' := ReleaseOnce(allocation, facts, loop, failed, script, m, op', start);
        if pending { return; }
        failed := failed + 1;
      }
    }

    // ── The whole run ───────────────────────────────────────────────────

    /** The guard clause, then the network's risk signal. */
    method ReadNetwork(allocation: Allocation, script: seq<Input>, ghost op: Op, ghost start: (Op, Net))
      returns (m: nat, ended: bool, pending: bool, facts: Facts, ghost op': Op)
      requires Reflects(op, allocation) && op == Started(device, activities.qosProfile, expected)
      requires start == (op, activities.provider.View())
      modifies `completed, `suspended, `qosStatus, `latestCongestion, `deviceReachable, `trail
      ensures m <= |script| && (pending ==> m == |script| && !ended)
      ensures Reflects(op', allocation) && op'.facts == facts && op'.loop == FRESH_LOOP
      ensures (op', activities.provider.View()) == RunAlone(start.0, start.1, script[..m])
      ensures ended <==> op'.pc.Done?
      ensures !ended && !pending ==> op'.pc == ReadingPolicy && !op'.crashed
    {
      hide MockNetworkProvider.View, RunAlone, Step, Enabled;
      ghost var net := activities.provider.View();
      assert script[..0] == [];
      NothingYet(op, net);
      facts := Facts(Low, WorkerConfig(false), true, LOW, false, NONE);
      ended, pending := false, false;

      m, op' := Wait(allocation, CheckingDevice, facts, FRESH_LOOP, script, 0, op, start);
      if m == |script| { pending := true; return; }
      OneMore(start.0, start.1, script, m);
      BeforeIs(op', net, script[m]);
      var reachable := script[m].reachable;
      op' := OnDeviceRead(op', reachable);
      m := m + 1;
      if reachable.None? { ended := true; return; }
      Emit(Record(DEVICE_CHECKED, reachable := reachable));
      if !reachable.value {
        Emit(Record(DECIDED, action := Some(NONE), reachable := Some(false), rule := Some(GUARD_DEVICE_UNREACHABLE)));
        ended := true;
        return;
      }

      m, op' := Wait(allocation, QueryingCongestion, facts, FRESH_LOOP, script, m, op', start);
      if m == |script| { pending := true; return; }
      OneMore(start.0, start.1, script, m);
      BeforeIs(op', net, script[m]);
      var level := script[m].level;
      op' := OnCongestionRead(op', level);
      m := m + 1;
      if level.None? { ended := true; return; }
      facts := facts.(congestion := level.value);
      Emit(Record(CONGESTION_CHECKED, congestion := level));
    }

    /** The verdict, or what stands in for one, and the decision on it. */
    method Judge(allocation: Allocation, known: Facts, script: seq<Input>, n: nat, ghost op: Op, ghost start: (Op, Net))
      returns (m: nat, ended: bool, pending: bool, facts: Facts, ghost op': Op)
      requires n <= |script| && Reflects(op, allocation) && op.pc == ReadingPolicy && !op.crashed
      requires op.facts == known && op.loop == FRESH_LOOP && op.alloc == NOTHING
      requires (op, activities.provider.View()) == RunAlone(start.0, start.1, script[..n])
      modifies `completed, `suspended, `qosStatus, `latestCongestion, `deviceReachable, `trail
      ensures n <= m <= |script| && (pending ==> m == |script| && !ended)
      ensures Reflects(op', allocation) && op'.facts == facts && op'.loop == FRESH_LOOP
      ensures (op', activities.provider.View()) == RunAlone(start.0, start.1, script[..m])
      ensures ended <==> op'.pc.Done?
      ensures !ended && !pending ==> op'.pc == Allocating(0) && !op'.crashed
    {
      hide MockNetworkProvider.View, RunAlone, Step, Enabled, Decide;
      ghost var net := activities.provider.View();
      facts, ended, pending := known, false, false;

      m, op' := Wait(allocation, ReadingPolicy, facts, FRESH_LOOP, script, n, op, start);
      if m == |script| { pending := true; return; }
      OneMore(start.0, start.1, script, m);
      BeforeIs(op', net, script[m]);
      if script[m].PolicyUnread? {
        op' := Crash(op');
        m := m + 1;
        ended := true;
        return;
      }
      facts := facts.(cfg := script[m].cfg, failOpen := script[m].failOpen);
      op' := op'.(facts := facts, pc := Assessing);
      m := m + 1;

      m, op' := Wait(allocation, Assessing, facts, FRESH_LOOP, script, m, op', start);
      if m == |script| { pending := true; return; }
      OneMore(start.0, start.1, script, m);
      BeforeIs(op', net, script[m]);
      var criticality := if facts.failOpen then HIGH else LOW;
      var safety := facts.failOpen;
      if script[m].Assessed? { criticality, safety := script[m].criticality, script[m].safety; }
      m := m + 1;
      op' := OnVerdict(op', criticality, safety);
      Emit(Record(CRITICALITY_ASSESSED, criticality := Some(criticality)));
      var policy := Policy.Judge(criticality, facts.congestion, safety, facts.cfg);
      Emit(Record(DECIDED, action := Some(policy.action), reachable := Some(true), criticality := Some(criticality),
                  congestion := Some(facts.congestion), rule := Some(policy.rule)));
      facts := facts.(criticality := criticality, safety := safety, action := policy.action);
      ended := policy.action == NONE;
    }

    /**
     * The run of one operation, alone on its network: whatever arrives, the object and
     * the provider go through the states of the step machine, to the end or to the last
     * arrival.
     */
    method Run(script: seq<Input>) returns (m: nat, ended: bool, ghost op: Op)
      requires activities.provider.Valid()
      requires Signals() == Inbox(false, false, None, None, None) && trail == [] && books == Books({}, false, false, 0)
      modifies this, activities.provider.Repr()
      ensures activities.provider.Valid()
      ensures m <= |script| && (ended <==> op.pc.Done?) && (!ended ==> m == |script|)
      ensures (op, activities.provider.View())
              == RunAlone(Started(device, activities.qosProfile, expected), old(activities.provider.View()),
                          script[..m])
      ensures trail == op.trail && Signals() == op.inbox
    {
      hide MockNetworkProvider.View, MockNetworkProvider.Valid, RunAlone, StartRelease, NextIteration;
      var allocation := new Allocation();
      op := Started(device, activities.qosProfile, expected);
      ghost var start := (op, activities.provider.View());
      var pending, facts;
      m, ended, pending, facts, op := ReadNetwork(allocation, script, op, start);
      if ended || pending { return; }
      m, ended, pending, facts, op := Judge(allocation, facts, script, m, op, start);
      if ended || pending { return; }
      var raised, baseline;
      m, raised, pending, baseline, op := AllocateWithRetry(allocation, facts, script, m, op, start);
      if pending { return; }
      var loop := if raised then FRESH_LOOP else Loop(facts.action, baseline, 0, 0, false, false);
      if !raised {
        m, raised, pending, op := ConfirmQosAvailable(allocation, facts, loop, script, m, op, start);
        if pending { return; }
        if raised {
          FailedIsReleased(op);
        } else {
          m, raised, pending, loop, op := Monitor(allocation, facts, baseline, script, m, op, start);
          if pending { return; }
        }
      }
      m, pending, op := Release(allocation, facts, loop, script, m, op, start);
      ended := !pending;
    }
  }
}
