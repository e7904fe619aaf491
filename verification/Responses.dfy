/** What the workflow does when it is asked to: each request, its answer, and when it is not met. */
module Responses {
  import opened Shared
  import opened Policy
  import opened Network
  import opened Activities
  import opened Workflow
  import opened WorkflowSafety
  import opened Decisions

  // ── The activities ──────────────────────────────────────────────────

  /** Both resources come back exactly when asked for, ready, and nothing raised; what comes back is on the network. */
  lemma AllocationIsWhatWasAskedFor(net: Net, device: string, profile: string, action: NetworkAction, duration: int,
                                    f: AllocateFaults)
    ensures var (net', outcome) := Allocate(net, device, profile, action, duration, f);
            var wants := action == QOD_AND_SLICE && net.slice.Some?;
            && (outcome.Refused? <==> action == NONE)
            && (outcome.Allocated? <==> action != NONE && !f.create && !(wants && f.attach))
            && (outcome.Allocated? ==>
                  && outcome.alloc.session.Some?
                  && outcome.alloc.session.value in net'.sessions
                  && net'.sessions[outcome.alloc.session.value] == Session(REQUESTED, profile, duration, None, None)
                  && outcome.alloc.slice == (if wants then net.slice else None)
                  && (outcome.alloc.attachment.Some? <==> wants)
                  && (wants ==> outcome.alloc.attachment.value in net'.attachments
                                && net'.attachments[outcome.alloc.attachment.value] == net.slice.value))
            && (outcome.Raised? ==>
                  && net'.attachments == net.attachments
                  && (outcome.orphan.Some? <==> !f.create && f.cleanup)
                  && (outcome.orphan.Some? ==> outcome.orphan.value in net'.sessions))
  {
    hide SessionId, AttachmentId;
  }

  /** A slice is attached exactly when one is ready and attaching does not raise. */
  lemma EscalationIsWhatWasAskedFor(net: Net, device: string, attachRaises: bool)
    ensures var (net', outcome) := Escalate(net, device, attachRaises);
            && (outcome.Attached? <==> net.slice.Some? && !attachRaises)
            && (outcome.EscalateRaised? <==> net.slice.Some? && attachRaises)
            && (outcome.Attached? ==>
                  && Some(outcome.slice) == net.slice
                  && outcome.attachment in net'.attachments && net'.attachments[outcome.attachment] == outcome.slice)
            && (!outcome.Attached? ==> net' == net)
  {
    hide AttachmentId;
  }

  /** Each resource held goes back unless its own call raises, whatever becomes of the other, and nothing else goes. */
  lemma ReleaseIsWhatWasAskedFor(net: Net, a: Alloc, f: ReleaseFaults)
    ensures var (net', r) := Release(net, a, f);
            && net'.slice == net.slice && net'.counter == net.counter
            && (forall s :: s in net'.sessions <==> s in net.sessions && (Some(s) == a.session ==> f.delete))
            && (forall s | s in net'.sessions :: net'.sessions[s] == net.sessions[s])
            && (forall t :: t in net'.attachments <==>
                  t in net.attachments && (Some(t) == a.attachment && a.slice.Some? ==> f.detach))
            && (forall t | t in net'.attachments :: net'.attachments[t] == net.attachments[t])
            && (r.qod <==> a.session.Some? && !f.delete)
            && (r.slice <==> a.attachment.Some? && a.slice.Some? && !f.detach)
            && (r.complete <==> (a.session.Some? ==> !f.delete) && (a.attachment.Some? && a.slice.Some? ==> !f.detach))
  {
  }

  // ── A halted load, a slice still owed ───────────────────────────────

  /** What an escalation leaves: the slice in hand and on the network if it was there to be had. */
  ghost predicate Escalates(op: Op, net: Net, op': Op, net': Net, wanted: bool, attachRaises: bool) {
    var had := op.alloc.slice.Some?;
    && (op'.alloc.slice.Some? <==> had || (wanted && net.slice.Some? && !attachRaises))
    && (op'.crashed <==> op.crashed || (!had && wanted && net.slice.Some? && attachRaises))
    && (!had && op'.alloc.slice.Some? ==>
          && op'.alloc.slice == net.slice && op'.alloc.attachment.Some?
          && op'.alloc.attachment.value in net'.attachments
          && net'.attachments[op'.alloc.attachment.value] == net.slice.value
          && op'.loop.action == QOD_AND_SLICE)
    && (had || op'.alloc.slice.None? ==> op'.alloc == op.alloc && net' == net && op'.loop.action == op.loop.action)
  }

  lemma EscalationAnswers(op: Op, net: Net, attachRaises: bool, r: Record)
    requires op.alloc.slice.None?
    ensures var (op', net') := TryEscalate(op, net, attachRaises, r); Escalates(op, net, op', net', true, attachRaises)
  {
    hide Escalate;
    EscalationIsWhatWasAskedFor(net, op.device, attachRaises);
    match Escalate(net, op.device, attachRaises).1
    case Attached(slice, attachment) =>
    case SliceUnavailable =>
    case EscalateRaised =>
  }

  predicate HandlesHalt(op: Op, i: Input) {
    Enabled(op, i) && i.Wake? && !op.inbox.completed && op.inbox.suspended && !op.loop.wasSuspended
  }

  /** A halt asks for the slice on any device that is not reported absent, unless slices are switched off. */
  predicate HaltWants(op: Op) { op.inbox.reachable != Some(false) && op.facts.cfg.enableSlice }

  lemma ProtectionAnswers(op: Op, net: Net, attachRaises: bool)
    ensures var (op', net') := ProtectSuspended(op, net, attachRaises);
            && Escalates(op, net, op', net', HaltWants(op), attachRaises)
            && |op'.trail| > |op.trail| && op'.trail[|op.trail|].step == DECIDED
            && op'.trail[|op.trail|].action == Some(if op.inbox.reachable == Some(false) then NONE
                                                    else if op.facts.cfg.enableSlice then QOD_AND_SLICE else QOD)
  {
    hide TryEscalate, JudgeSuspended;
    var policy := SuspensionPolicy(op);
    var congestion := if op.inbox.congestion.Some? then op.inbox.congestion.value else Low;
    SuspensionJudgementIs(congestion, op.inbox.reachable != Some(false), op.facts.cfg);
    var decided := Emit(op, Record(DECIDED, action := Some(policy.action),
                                   reachable := Some(op.inbox.reachable != Some(false)),
                                   rule := Some(policy.rule)));
    var r := Record(ALLOCATED, rule := Some(policy.rule));
    if op.alloc.slice.None? {
      EscalationAnswers(decided, net, attachRaises, r);
      EscalationGrowsTrail(decided, net, attachRaises, r);
    }
  }

  lemma EscalationGrowsTrail(op: Op, net: Net, attachRaises: bool, r: Record)
    ensures op.trail <= TryEscalate(op, net, attachRaises, r).0.trail
  {
    hide Escalate;
  }

  lemma SameButPc(op: Op, during: seq<Signal>)
    ensures var op' := NextIteration(op, during);
            op' == op.(inbox := Deliver(op.inbox, during), pc := op'.pc)
  {
  }

  /**
   * After the wake that handles a halt the operation holds a slice if and only if it held one,
   * or the device is not reported unreachable, slices are on, one is ready and attaching it did
   * not raise. What it holds is on the network, and the decision is on the trail.
   */
  lemma HaltIsProtected(op: Op, net: Net, i: Input)
    requires HandlesHalt(op, i)
    ensures var (op', net') := Step(op, net, i);
            && Escalates(op, net, op', net', HaltWants(op), i.attachRaises)
            && op'.loop.wasSuspended
            && |op'.trail| > |op.trail| && op'.trail[|op.trail|].step == DECIDED
            && op'.trail[|op.trail|].action == Some(if op.inbox.reachable == Some(false) then NONE
                                                    else if op.facts.cfg.enableSlice then QOD_AND_SLICE else QOD)
  {
    hide ProtectSuspended, NextIteration, Awaited, WakeAwaits;
    var halted := op.(loop := op.loop.(wasSuspended := true));
    ProtectionAnswers(halted, net, i.attachRaises);
    EscalationsKeep(halted, net, i.attachRaises);
    SameButPc(ProtectSuspended(halted, net, i.attachRaises).0, i.during);
  }

  predicate HandlesCongestion(op: Op, i: Input) {
    Enabled(op, i) && i.Wake? && !op.inbox.completed && !SuspensionDiffers(op) && !DeviceDiffers(op)
  }

  /** A reading asks for the slice that is still owed, or that the work now deserves. */
  predicate ReadingWants(op: Op) {
    && op.inbox.congestion.Some?
    && (op.loop.action == QOD_AND_SLICE
        || DeservesSlice(op.facts.criticality, op.inbox.congestion.value, op.facts.safety, op.facts.cfg))
  }

  lemma ReassessmentAnswers(op: Op, net: Net, attachRaises: bool)
    ensures var (op', net') := ReassessCongestion(op, net, attachRaises);
            Escalates(op, net, op', net', ReadingWants(op), attachRaises)
  {
    hide TryEscalate, Judge;
    if op.inbox.congestion.Some? {
      JudgementIs(op.facts.criticality, op.inbox.congestion.value, op.facts.safety, op.facts.cfg);
    }
    if op.alloc.slice.None? {
      EscalationAnswers(op, net, attachRaises, Record(ALLOCATED, congestion := op.inbox.congestion));
    }
  }

  /** After a wake for a reading: the slice, if and only if it was held, or is wanted, ready and does not raise. */
  lemma OwedSliceIsAttached(op: Op, net: Net, i: Input)
    requires HandlesCongestion(op, i)
    ensures var (op', net') := Step(op, net, i);
            && Escalates(op, net, op', net', ReadingWants(op), i.attachRaises)
            && op'.loop.known == op.inbox.congestion
  {
    hide ReassessCongestion, NextIteration, Awaited, WakeAwaits;
    var noted := op.(loop := op.loop.(known := op.inbox.congestion));
    ReassessmentAnswers(noted, net, i.attachRaises);
    EscalationsKeep(noted, net, i.attachRaises);
    SameButPc(ReassessCongestion(noted, net, i.attachRaises).0, i.during);
  }

  // ── Extending ───────────────────────────────────────────────────────

  /** A full wait buys another chunk if and only if the device is there, both budgets have room and the call works. */
  lemma FullWaitIsExtended(op: Op, net: Net, i: Input)
    requires OpInv(op) && Enabled(op, i) && i.Timeout?
    ensures var (op', net') := Step(op, net, i);
            var s, chunk := op.alloc.session.value, if op.expected > 30 then op.expected else 30;
            var room := !op.loop.deviceLost
                        && (if op.inbox.suspended then op.loop.suspendedFor + chunk < 900
                            else op.loop.waited + chunk < 4 * op.expected);
            && (room && !i.extendRaises && s in net.sessions ==> net' == Extend(net, s, chunk) && !op'.crashed)
            && (!(room && !i.extendRaises && s in net.sessions) ==> net' == net)
            && (op'.crashed <==> room && (i.extendRaises || s !in net.sessions))
  {
    hide NextIteration, Awaited, Extend;
    SameButPc(TimeoutBody(op, net, i.extendRaises).0, i.during);
  }

  // ── Hearing ─────────────────────────────────────────────────────────

  /** Signals of one kind replace one another; a halt and its end are of one kind. */
  function Kind(s: Signal): nat {
    match s
    case OperationCompleted => 0
    case OperationSuspended => 1
    case OperationResumed => 1
    case QodStatusChanged(_) => 2
    case CongestionUpdated(_) => 3
    case DeviceStatusChanged(_) => 4
  }

  predicate Stands(b: Inbox, s: Signal) {
    match s
    case OperationCompleted => b.completed
    case OperationSuspended => b.suspended
    case OperationResumed => !b.suspended
    case QodStatusChanged(q) => b.qosStatus == q
    case CongestionUpdated(level) => b.congestion == level
    case DeviceStatusChanged(r) => b.reachable == r
  }

  /** The last signal of each kind is what stands, whatever else came. */
  lemma {:induction false} LatestSignalStands(b: Inbox, ss: seq<Signal>, k: nat)
    requires k < |ss| && forall j | k < j < |ss| :: Kind(ss[j]) != Kind(ss[k])
    ensures Stands(Deliver(b, ss), ss[k])
    decreases |ss|
  {
    if k < |ss| - 1 {
      var init := ss[..|ss| - 1];
      assert forall j | k < j < |init| :: Kind(init[j]) != Kind(init[k]);
      LatestSignalStands(b, init, k);
    }
  }

  /** A kind that no signal is of stands as it stood; a completion is never taken back. */
  lemma {:induction false} SilenceChangesNothing(b: Inbox, ss: seq<Signal>, s: Signal)
    requires Stands(b, s)
    requires s == OperationCompleted || forall k | 0 <= k < |ss| :: Kind(ss[k]) != Kind(s)
    ensures Stands(Deliver(b, ss), s)
    decreases |ss|
  {
    if ss != [] { SilenceChangesNothing(b, ss[..|ss| - 1], s); }
  }

  /** Once completion is reported the only way on is to give back: at once, with nothing else done first. */
  lemma CompletionIsHonoured(op: Op, net: Net, i: Input)
    requires OpInv(op) && op.pc.Waiting? && op.inbox.completed && Enabled(op, i) && !i.Arrives?
    ensures Step(op, net, i) == (op.(pc := Releasing(0)), net)
  {
    hide WakeBody, TimeoutBody;
  }

  /** And the loop does not go on waiting over a completion that came while it was busy. */
  lemma CompletionEndsTheLoop(op: Op, net: Net, i: Input)
    requires OpInv(op) && InMonitor(op.pc) && Enabled(op, i) && !i.Arrives? && Step(op, net, i).0.inbox.completed
    ensures Step(op, net, i).0.pc.Releasing?
  {
    hide WakeBody, TimeoutBody, OnQosTimedOut, OnQosKnown, BodyInv, Deliver, Judge;
    MonitorHasBodyInv(op);
    match i
    case QosSettled(during) =>
      QosKnownIsLater(op, net, 0, false);
      BusyLoopHears(op, OnQosKnown(op), during);
    case QosTimedOut(now, raises, during) =>
      QosKnownIsLater(op, net, now, raises);
      BusyLoopHears(op, OnQosTimedOut(op, net, now, raises).0, during);
    case Wake(_, attachRaises, during) =>
      if !op.inbox.completed {
        WakeIsLater(op, net, attachRaises);
        BusyLoopHears(op, WakeBody(op, net, attachRaises).0, during);
      }
    case Timeout(extendRaises, during) =>
      TimeoutIsLater(op, net, extendRaises);
      BusyLoopHears(op, TimeoutBody(op, net, extendRaises).0, during);
  }

  lemma BusyLoopHears(op: Op, body: Op, during: seq<Signal>)
    requires op.alloc.session.Some? && Later(op, body) && NextIteration(body, during).inbox.completed
    ensures NextIteration(body, during).pc.Releasing?
  {
  }

  /** What the trail is told of the session: the status signalled, or the one the poll found. */
  lemma StatusIsReported(op: Op, net: Net, i: Input)
    requires OpInv(op) && op.pc.Confirming? && Enabled(op, i) && !i.Arrives?
    ensures i.QosSettled? <==> op.inbox.qosStatus == Some(AVAILABLE) || op.inbox.qosStatus == Some(UNAVAILABLE)
    ensures var (op', net') := Step(op, net, i);
            var s := op.alloc.session.value;
            && (i.QosSettled? ==>
                  && net' == net && !op'.crashed
                  && op'.trail
                     == op.trail + [Record(QOS_STATUS_CHANGED, session := Some(s), qos := op.inbox.qosStatus)])
            && (i.QosTimedOut? ==>
                  (op'.crashed <==> i.pollRaises || s !in net.sessions)
                  && (op'.crashed ==> op'.trail == op.trail && net' == net)
                  && (!op'.crashed ==>
                        && s in net'.sessions
                        && (net.sessions[s].status == REQUESTED ==>
                              net'.sessions[s].status == AVAILABLE && net'.sessions[s].startedAt == Some(i.now))
                        && op'.trail == op.trail + [Record(QOS_STATUS_CHANGED, session := Some(s),
                                                           qos := Some(net'.sessions[s].status))]))
  {
    hide NextIteration;
    if i.QosSettled? {
      SameButPc(OnQosKnown(op), i.during);
    } else {
      SameButPc(OnQosTimedOut(op, net, i.now, i.pollRaises).0, i.during);
    }
  }

  // ── Attempts ────────────────────────────────────────────────────────

  predicate IsReleaseTry(op: Op, i: Input) { Enabled(op, i) && i.ReleaseTry? }

  /** An attempt gives everything back if and only if no call it has to make raises. */
  predicate GivesBack(op: Op, i: Input) {
    IsReleaseTry(op, i) && !i.releaseFaults.delete && (op.alloc.attachment.Some? ==> !i.releaseFaults.detach)
  }

  function ReleaseTries(op: Op, h: seq<Turn>): nat
    decreases |h|
  {
    if h == [] then 0
    else (if IsReleaseTry(op, h[0].input) then 1 else 0) + ReleaseTries(Step(op, h[0].net, h[0].input).0, h[1..])
  }

  function ReleasesThatWorked(op: Op, h: seq<Turn>): nat
    decreases |h|
  {
    if h == [] then 0
    else (if GivesBack(op, h[0].input) then 1 else 0) + ReleasesThatWorked(Step(op, h[0].net, h[0].input).0, h[1..])
  }

  lemma ReleaseTryIs(op: Op, net: Net, i: Input)
    requires OpInv(op) && IsReleaseTry(op, i)
    ensures op.pc.Releasing? && op.pc.failedAttempts < 10
    ensures Step(op, net, i).0.pc == if GivesBack(op, i) then Done(GaveBack)
                                     else if op.pc.failedAttempts < 9 then Releasing(op.pc.failedAttempts + 1)
                                     else Done(ReleaseAbandoned)
  {
    hide Delete, Detach;
  }

  lemma OtherStepTriesNoRelease(op: Op, net: Net, i: Input)
    requires OpInv(op) && !IsReleaseTry(op, i)
    ensures var pc, pc' := op.pc, Step(op, net, i).0.pc;
            && (pc.Releasing? || pc.Done? ==> pc' == pc)
            && (!pc.Releasing? && !pc.Done? ==>
                  pc' != Done(GaveBack) && pc' != Done(ReleaseAbandoned) && (pc'.Releasing? ==> pc' == Releasing(0)))
  {
    hide WakeBody, TimeoutBody, OnQosTimedOut, OnQosKnown, Allocate, Judge;
  }

  function Failed(op: Op): nat { if op.pc.Releasing? then op.pc.failedAttempts else 0 }

  /** How the release stands, from the attempts made and the ones that worked. */
  predicate ReleaseStands(op: Op, tries: int, worked: int) {
    match op.pc
    case Releasing(failed) => tries == failed < 10 && worked == 0
    case Done(GaveBack) => 1 <= tries <= 10 && worked == 1
    case Done(ReleaseAbandoned) => tries == 10 && worked == 0
    case _ => tries == 0 && worked == 0
  }

  lemma {:induction false} NoReleaseOnceDone(op: Op, h: seq<Turn>)
    requires OpInv(op) && op.pc.Done?
    ensures Exec(op, h).pc == op.pc && ReleaseTries(op, h) == 0 && ReleasesThatWorked(op, h) == 0
    decreases |h|
  {
    hide Step;
    if h != [] {
      StepKeepsInv(op, h[0].net, h[0].input);
      OtherStepTriesNoRelease(op, h[0].net, h[0].input);
      NoReleaseOnceDone(Step(op, h[0].net, h[0].input).0, h[1..]);
    }
  }

  lemma {:induction false} ReleasesAreCounted(op: Op, h: seq<Turn>)
    requires OpInv(op) && !op.pc.Done?
    ensures ReleaseStands(Exec(op, h), Failed(op) + ReleaseTries(op, h), ReleasesThatWorked(op, h))
    decreases |h|
  {
    hide Step, IsReleaseTry, GivesBack, OpInv;
    if h == [] {
      if op.pc.Releasing? { ReleasingIsUnderWay(op); }
    } else {
      var net, i := h[0].net, h[0].input;
      var next := Step(op, net, i).0;
      StepKeepsInv(op, net, i);
      if IsReleaseTry(op, i) {
        ReleaseTryIs(op, net, i);
      } else {
        OtherStepTriesNoRelease(op, net, i);
        OnlyTriesWork(op, i);
      }
      if next.pc.Done? { NoReleaseOnceDone(next, h[1..]); } else { ReleasesAreCounted(next, h[1..]); }
    }
  }

  lemma ReleasingIsUnderWay(op: Op)
    requires OpInv(op) && op.pc.Releasing?
    ensures op.pc.failedAttempts < 10
  {
  }

  lemma OnlyTriesWork(op: Op, i: Input)
    ensures GivesBack(op, i) ==> IsReleaseTry(op, i)
  {
  }

  /**
   * The persistence of the release, over whole runs. It is given up only after exactly ten
   * attempts of which none worked; it is over as soon as one works; until either, the next
   * attempt is made.
   */
  lemma ReleaseTakesUpToTenAttempts(device: string, profile: string, expected: int, h: seq<Turn>)
    ensures var start := Started(device, profile, expected);
            var op, tries, worked := Exec(start, h), ReleaseTries(start, h), ReleasesThatWorked(start, h);
            && tries <= 10 && worked <= 1
            && (op.pc == Done(ReleaseAbandoned) <==> tries == 10 && worked == 0)
            && (op.pc == Done(GaveBack) <==> worked == 1)
            && (0 < tries < 10 && worked == 0 ==> op.pc == Releasing(tries))
            && (op.pc.Releasing? ==> op.pc == Releasing(tries) && worked == 0)
  {
    hide Exec, OpInv, ReleaseTries, ReleasesThatWorked;
    StartHasInv(device, profile, expected);
    ReleasesAreCounted(Started(device, profile, expected), h);
  }

  predicate IsAllocateTry(op: Op, i: Input) { Enabled(op, i) && i.AllocateTry? }

  /** An attempt allocates if and only if no call it has to make raises. */
  predicate Allocates(op: Op, net: Net, i: Input) {
    && IsAllocateTry(op, i) && !i.allocFaults.create
    && (op.facts.action == QOD_AND_SLICE && net.slice.Some? ==> !i.allocFaults.attach)
  }

  function AllocateTries(op: Op, h: seq<Turn>): nat
    decreases |h|
  {
    if h == [] then 0
    else (if IsAllocateTry(op, h[0].input) then 1 else 0) + AllocateTries(Step(op, h[0].net, h[0].input).0, h[1..])
  }

  function AllocationsThatWorked(op: Op, h: seq<Turn>): nat
    decreases |h|
  {
    if h == [] then 0
    else (if Allocates(op, h[0].net, h[0].input) then 1 else 0)
         + AllocationsThatWorked(Step(op, h[0].net, h[0].input).0, h[1..])
  }

  lemma AllocateTryIs(op: Op, net: Net, i: Input)
    requires OpInv(op) && IsAllocateTry(op, i)
    ensures op.pc.Allocating? && op.pc.failedAttempts < 3
    ensures var op' := Step(op, net, i).0;
            if Allocates(op, net, i) then op'.pc == Confirming && op'.alloc.session.Some?
            else if op.pc.failedAttempts < 2 then op'.pc == Allocating(op.pc.failedAttempts + 1)
            else op'.pc == Done(NothingHeld) && op'.crashed && op'.alloc == NOTHING
  {
    hide Allocate, Judge;
    AllocationIsWhatWasAskedFor(net, op.device, op.profile, op.facts.action, op.expected + GRACE_SECONDS,
                                i.allocFaults);
  }

  /**
   * What is allocated is watched from then on: its status is awaited whatever was signalled
   * before, the level it was decided on is not news, and no budget has been used.
   */
  lemma AllocationStartsAfresh(op: Op, net: Net, i: Input)
    requires OpInv(op) && Allocates(op, net, i)
    ensures var op' := Step(op, net, i).0;
            && op'.inbox == op.inbox.(qosStatus := Some(REQUESTED)) && !Settled(op'.inbox)
            && op'.loop == Loop(op.facts.action, op.inbox.congestion, 0, 0, false, false)
            && (Awaited(op') <==> op.inbox.completed || op.inbox.suspended || op.inbox.reachable == Some(false))
  {
    hide Allocate, Judge;
    AllocationIsWhatWasAskedFor(net, op.device, op.profile, op.facts.action, op.expected + GRACE_SECONDS,
                                i.allocFaults);
  }

  lemma OtherStepTriesNoAllocation(op: Op, net: Net, i: Input)
    requires OpInv(op) && !IsAllocateTry(op, i)
    ensures var op' := Step(op, net, i).0;
            && (op.pc.Allocating? ==> op'.pc == op.pc)
            && (!BeforeAllocation(op.pc) ==> !BeforeAllocation(op'.pc) && op'.alloc.session == op.alloc.session)
            && (BeforeAllocation(op.pc) ==>
                  && op'.alloc == NOTHING && (op'.pc.Allocating? && !op.pc.Allocating? ==> op'.pc == Allocating(0))
                  && (BeforeAllocation(op'.pc) || op'.pc == Done(NothingHeld)))
  {
    hide WakeBody, TimeoutBody, OnQosTimedOut, OnQosKnown, Release, Judge;
    StepIsLater(op, net, i);
  }

  /** How the allocation stands, from the attempts made and the ones that worked. */
  predicate AllocationStands(op: Op, tries: int, worked: int) {
    match op.pc
    case Allocating(failed) => tries == failed < 3 && worked == 0 && op.alloc.session.None?
    case _ =>
      if op.alloc.session.Some? then 1 <= tries <= 3 && worked == 1
      else worked == 0 && (tries == 0 || (tries == 3 && op.crashed && op.pc == Done(NothingHeld)))
  }

  lemma {:induction false} NoAllocationAfterwards(op: Op, h: seq<Turn>)
    requires OpInv(op) && !BeforeAllocation(op.pc)
    ensures var end := Exec(op, h);
            && !BeforeAllocation(end.pc) && end.alloc.session == op.alloc.session
            && AllocateTries(op, h) == 0 && AllocationsThatWorked(op, h) == 0
            && (op.pc.Done? ==> end.pc == op.pc && end.crashed == op.crashed)
    decreases |h|
  {
    hide Step;
    if h != [] {
      StepKeepsInv(op, h[0].net, h[0].input);
      OtherStepTriesNoAllocation(op, h[0].net, h[0].input);
      if op.pc.Done? { DoneIsDone(op, h[0].net, h[0].input); }
      NoAllocationAfterwards(Step(op, h[0].net, h[0].input).0, h[1..]);
    }
  }

  lemma DoneIsDone(op: Op, net: Net, i: Input)
    requires op.pc.Done?
    ensures Step(op, net, i) == (op, net)
  {
  }

  lemma {:induction false} AllocationsAreCounted(op: Op, h: seq<Turn>)
    requires OpInv(op) && BeforeAllocation(op.pc)
    ensures var before := if op.pc.Allocating? then op.pc.failedAttempts else 0;
            AllocationStands(Exec(op, h), before + AllocateTries(op, h), AllocationsThatWorked(op, h))
    decreases |h|
  {
    hide Step, IsAllocateTry, Allocates, OpInv;
    if h == [] {
      AllocatingIsUnderWay(op);
    } else {
      var net, i := h[0].net, h[0].input;
      var next := Step(op, net, i).0;
      StepKeepsInv(op, net, i);
      if IsAllocateTry(op, i) {
        AllocateTryIs(op, net, i);
      } else {
        OtherStepTriesNoAllocation(op, net, i);
        OnlyTriesAllocate(op, net, i);
      }
      if BeforeAllocation(next.pc) {
        AllocationsAreCounted(next, h[1..]);
      } else {
        NoAllocationAfterwards(next, h[1..]);
      }
    }
  }

  lemma AllocatingIsUnderWay(op: Op)
    requires OpInv(op) && BeforeAllocation(op.pc)
    ensures op.alloc.session.None? && (op.pc.Allocating? ==> op.pc.failedAttempts < 3)
  {
  }

  lemma OnlyTriesAllocate(op: Op, net: Net, i: Input)
    ensures Allocates(op, net, i) ==> IsAllocateTry(op, i)
  {
  }

  /** An allocation is given up after exactly three attempts of which none worked, and made as soon as one works. */
  lemma AllocationTakesUpToThreeAttempts(device: string, profile: string, expected: int, h: seq<Turn>)
    ensures var start := Started(device, profile, expected);
            var op, tries, worked := Exec(start, h), AllocateTries(start, h), AllocationsThatWorked(start, h);
            && tries <= 3 && worked <= 1
            && (op.alloc.session.Some? <==> worked == 1)
            && (tries == 3 && worked == 0 ==> op.pc == Done(NothingHeld) && op.crashed)
            && (0 < tries < 3 && worked == 0 ==> op.pc == Allocating(tries))
  {
    hide Exec, OpInv, AllocateTries, AllocationsThatWorked;
    StartHasInv(device, profile, expected);
    AllocationsAreCounted(Started(device, profile, expected), h);
  }
}
