/** What every run of one operation keeps, whatever the network and the signals do. */
module WorkflowSafety {
  import opened Shared
  import opened Policy
  import opened Network
  import opened Activities
  import opened Workflow

  predicate BeforeAllocation(pc: Pc) {
    pc.CheckingDevice? || pc.QueryingCongestion? || pc.ReadingPolicy? || pc.Assessing? || pc.Allocating?
  }

  predicate InMonitor(pc: Pc) { pc.Confirming? || pc.Waiting? }

  predicate AllocInv(op: Op) {
    && (op.alloc.slice.Some? <==> op.alloc.attachment.Some?)
    && (op.alloc.session.None? ==> op.alloc.slice.None?)
    && (op.alloc.slice.Some? ==> op.loop.action == QOD_AND_SLICE)
    && (op.alloc.session.Some? ==>
          && op.facts.action != NONE
          && Protection(op.facts.action) <= Protection(op.loop.action))
  }

  predicate PcInv(op: Op) {
    && (BeforeAllocation(op.pc) ==> op.alloc == NOTHING && !op.crashed)
    && (InMonitor(op.pc) || op.pc.Releasing? ==> op.alloc.session.Some?)
    && (InMonitor(op.pc) ==> !op.crashed)
    && (op.pc.Allocating? ==> op.pc.failedAttempts < ALLOCATE_ATTEMPTS && op.facts.action != NONE)
    && (op.pc.Releasing? ==> op.pc.failedAttempts < RELEASE_ATTEMPTS)
    && (op.pc.Allocating? || op.alloc.session.Some? ==>
          op.facts.action == Judge(op.facts.criticality, op.facts.congestion, op.facts.safety, op.facts.cfg).action)
  }

  predicate BooksInv(op: Op) {
    && (BeforeAllocation(op.pc) || InMonitor(op.pc) || op.pc == Releasing(0) ==>
          !op.books.sessionGone && !op.books.attachmentGone)
    && (op.pc == Done(NothingHeld) ==>
          op.alloc == NOTHING && !op.books.sessionGone && !op.books.attachmentGone)
    && (op.pc == Done(GaveBack) ==>
          op.alloc.session.Some? && op.books.sessionGone && (op.alloc.slice.Some? ==> op.books.attachmentGone))
    && (op.pc == Done(ReleaseAbandoned) ==> op.alloc.session.Some? && op.crashed)
    && (op.books.attachmentGone ==> op.alloc.attachment.Some?)
  }

  predicate OrphanInv(op: Op) {
    && (BeforeAllocation(op.pc) && !op.pc.Allocating? ==> op.books.orphans == {})
    && (op.pc.Allocating? ==> |op.books.orphans| <= op.pc.failedAttempts)
    && (op.alloc.session.Some? ==> |op.books.orphans| < ALLOCATE_ATTEMPTS)
    && |op.books.orphans| <= ALLOCATE_ATTEMPTS
  }

  predicate LoopInv(op: Op) {
    && 0 <= op.loop.waited && 0 <= op.loop.suspendedFor && 0 <= op.books.forgone
    && (op.pc.Waiting? ==> op.loop.waited < MaxWait(op) && op.loop.suspendedFor < SUSPENDED_MAX_SECONDS)
    && (BeforeAllocation(op.pc) ==> op.books.forgone == 0)
    && (BeforeAllocation(op.pc) || op.pc.Confirming? ==>
          op.loop.waited == 0 && op.loop.suspendedFor == 0 && op.books.forgone == 0
          && !op.loop.wasSuspended && !op.loop.deviceLost)
  }

  predicate OpInv(op: Op) {
    AllocInv(op) && PcInv(op) && BooksInv(op) && OrphanInv(op) && LoopInv(op)
  }

  /** What the body of a loop iteration leaves, before the guard is looked at again. */
  predicate BodyInv(op: Op) {
    && AllocInv(op)
    && op.alloc.session.Some?
    && op.facts.action == Judge(op.facts.criticality, op.facts.congestion, op.facts.safety, op.facts.cfg).action
    && !op.books.sessionGone && !op.books.attachmentGone
    && |op.books.orphans| < ALLOCATE_ATTEMPTS
    && 0 <= op.loop.waited && 0 <= op.loop.suspendedFor && 0 <= op.books.forgone
  }

  lemma MonitorHasBodyInv(op: Op)
    requires OpInv(op) && InMonitor(op.pc)
    ensures BodyInv(op)
  {
  }

  lemma NextIterationKeepsInv(op: Op, during: seq<Signal>)
    requires BodyInv(op)
    ensures OpInv(NextIteration(op, during))
  {
  }

  lemma EscalationKeepsBody(op: Op, net: Net, attachRaises: bool, r: Record)
    requires BodyInv(op) && op.alloc.slice.None?
    ensures BodyInv(TryEscalate(op, net, attachRaises, r).0)
  {
  }

  lemma WakeKeepsBody(op: Op, net: Net, attachRaises: bool)
    requires BodyInv(op)
    ensures BodyInv(WakeBody(op, net, attachRaises).0)
  {
    hide Decide, Judge, JudgeSuspended;
    if SuspensionDiffers(op) && op.inbox.suspended {
      var halted := op.(loop := op.loop.(wasSuspended := true));
      var policy := SuspensionPolicy(halted);
      var decided := Emit(halted, Record(DECIDED, action := Some(policy.action),
                                         reachable := Some(halted.inbox.reachable != Some(false)),
                                         rule := Some(policy.rule)));
      if op.alloc.slice.None? {
        EscalationKeepsBody(decided, net, attachRaises, Record(ALLOCATED, rule := Some(policy.rule)));
      }
    } else if !SuspensionDiffers(op) && !DeviceDiffers(op) {
      var known := op.(loop := op.loop.(known := op.inbox.congestion));
      if op.alloc.slice.None? {
        EscalationKeepsBody(known, net, attachRaises, Record(ALLOCATED, congestion := op.inbox.congestion));
      }
    }
  }

  lemma TimeoutKeepsBody(op: Op, net: Net, extendRaises: bool)
    requires BodyInv(op)
    ensures BodyInv(TimeoutBody(op, net, extendRaises).0)
  {
    hide ExtendQod, Judge;
  }

  /** What an allocation brings fits together: a session always, a slice only with its attachment and when asked for. */
  lemma AllocatedFits(net: Net, device: string, profile: string, action: NetworkAction, duration: int,
                      f: AllocateFaults)
    ensures var outcome := Allocate(net, device, profile, action, duration, f).1;
            outcome.Allocated? ==>
              && outcome.alloc.session.Some?
              && (outcome.alloc.slice.Some? <==> outcome.alloc.attachment.Some?)
              && (outcome.alloc.slice.Some? ==> action == QOD_AND_SLICE)
  {
    hide Create, Delete, Attach;
  }

  lemma AllocateKeepsOrphans(op: Op, net: Net, f: AllocateFaults)
    requires OpInv(op) && op.pc.Allocating?
    ensures OrphanInv(OnAllocate(op, net, f).0)
  {
    hide Allocate, Judge, AllocInv, LoopInv, BooksInv;
  }

  lemma AllocateKeepsInv(op: Op, net: Net, f: AllocateFaults)
    requires OpInv(op) && op.pc.Allocating?
    ensures OpInv(OnAllocate(op, net, f).0)
  {
    hide Allocate, Judge, OrphanInv;
    AllocateKeepsOrphans(op, net, f);
    AllocatedFits(net, op.device, op.profile, op.facts.action, op.expected + GRACE_SECONDS, f);
  }

  lemma ReleaseKeepsInv(op: Op, net: Net, f: ReleaseFaults)
    requires OpInv(op) && op.pc.Releasing?
    ensures OpInv(OnRelease(op, net, f).0)
  {
  }

  lemma EarlyStepKeepsInv(op: Op, net: Net, i: Input)
    requires OpInv(op)
    requires i.Arrives? || i.DeviceRead? || i.CongestionRead? || i.PolicyRead? || i.PolicyUnread?
             || i.Assessed? || i.AssessmentFailed?
    ensures OpInv(Step(op, net, i).0)
  {
  }

  lemma StepKeepsInv(op: Op, net: Net, i: Input)
    requires OpInv(op)
    ensures OpInv(Step(op, net, i).0)
  {
    hide BodyInv, WakeBody, TimeoutBody, Judge;
    if Enabled(op, i) {
      if InMonitor(op.pc) { MonitorHasBodyInv(op); }
      match i
      case AllocateTry(f) => AllocateKeepsInv(op, net, f);
      case QosSettled(during) => NextIterationKeepsInv(OnQosKnown(op), during);
      case QosTimedOut(now, raises, during) =>
        NextIterationKeepsInv(OnQosTimedOut(op, net, now, raises).0, during);
      case Wake(_, attachRaises, during) =>
        WakeKeepsBody(op, net, attachRaises);
        NextIterationKeepsInv(WakeBody(op, net, attachRaises).0, during);
      case Timeout(extendRaises, during) =>
        TimeoutKeepsBody(op, net, extendRaises);
        NextIterationKeepsInv(TimeoutBody(op, net, extendRaises).0, during);
      case ReleaseTry(f) => ReleaseKeepsInv(op, net, f);
      case _ => EarlyStepKeepsInv(op, net, i);
    }
  }

  lemma {:induction false} EveryRunKeepsInv(op: Op, h: seq<Turn>)
    requires OpInv(op)
    ensures OpInv(Exec(op, h))
    decreases |h|
  {
    if h != [] {
      StepKeepsInv(op, h[0].net, h[0].input);
      EveryRunKeepsInv(Step(op, h[0].net, h[0].input).0, h[1..]);
    }
  }

  lemma StartHasInv(device: string, profile: string, expected: int)
    ensures OpInv(Started(device, profile, expected))
  {
  }

  // ── Escalate only ───────────────────────────────────────────────────

  /** Nothing granted is taken back, replaced or doubled; the trail only grows. */
  predicate Later(op: Op, op': Op) {
    && op'.device == op.device && op'.profile == op.profile && op'.expected == op.expected
    && op.trail <= op'.trail
    && op.books.orphans <= op'.books.orphans
    && (op.alloc.session.Some? ==>
          && op'.alloc.session == op.alloc.session
          && op'.facts == op.facts
          && Protection(op.loop.action) <= Protection(op'.loop.action))
    && (op.alloc.attachment.Some? ==>
          op'.alloc.slice == op.alloc.slice && op'.alloc.attachment == op.alloc.attachment)
  }

  lemma LaterIsTransitive(a: Op, b: Op, c: Op)
    requires Later(a, b) && Later(b, c)
    ensures Later(a, c)
  {
  }

  lemma NextIterationIsLater(op: Op, during: seq<Signal>)
    ensures Later(op, NextIteration(op, during))
  {
  }

  lemma EscalationIsLater(op: Op, net: Net, attachRaises: bool, r: Record)
    requires AllocInv(op) && op.alloc.slice.None?
    ensures Later(op, TryEscalate(op, net, attachRaises, r).0)
  {
    hide Escalate;
  }

  lemma ProtectIsLater(op: Op, net: Net, attachRaises: bool)
    requires AllocInv(op)
    ensures Later(op, ProtectSuspended(op, net, attachRaises).0)
  {
    hide TryEscalate, SuspensionPolicy;
    var policy := SuspensionPolicy(op);
    var decided := Emit(op, Record(DECIDED, action := Some(policy.action),
                                   reachable := Some(op.inbox.reachable != Some(false)),
                                   rule := Some(policy.rule)));
    if op.alloc.slice.None? {
      EscalationIsLater(decided, net, attachRaises, Record(ALLOCATED, rule := Some(policy.rule)));
      LaterIsTransitive(op, decided,
                        TryEscalate(decided, net, attachRaises, Record(ALLOCATED, rule := Some(policy.rule))).0);
    }
  }

  lemma WakeIsLater(op: Op, net: Net, attachRaises: bool)
    requires BodyInv(op)
    ensures Later(op, WakeBody(op, net, attachRaises).0)
  {
    hide ProtectSuspended, TryEscalate, Judge;
    if SuspensionDiffers(op) && op.inbox.suspended {
      ProtectIsLater(op.(loop := op.loop.(wasSuspended := true)), net, attachRaises);
    } else if !SuspensionDiffers(op) && !DeviceDiffers(op) && op.alloc.slice.None? {
      EscalationIsLater(op.(loop := op.loop.(known := op.inbox.congestion)), net, attachRaises,
                        Record(ALLOCATED, congestion := op.inbox.congestion));
    }
  }

  lemma AllocateIsLater(op: Op, net: Net, f: AllocateFaults)
    requires OpInv(op) && op.pc.Allocating?
    ensures Later(op, OnAllocate(op, net, f).0)
  {
  }

  /** Inputs whose handler is more than a few assignments. */
  predicate Compound(i: Input) {
    i.AllocateTry? || i.QosSettled? || i.QosTimedOut? || i.Wake? || i.Timeout?
  }

  lemma SimpleStepIsLater(op: Op, net: Net, i: Input)
    requires OpInv(op) && (Enabled(op, i) ==> !Compound(i))
    ensures Later(op, Step(op, net, i).0)
  {
  }

  /** A loop body followed by the guard, for whichever body it was. */
  lemma IterationIsLater(op: Op, body: Op, during: seq<Signal>)
    requires Later(op, body)
    ensures Later(op, NextIteration(body, during))
  {
    NextIterationIsLater(body, during);
    LaterIsTransitive(op, body, NextIteration(body, during));
  }

  lemma QosKnownIsLater(op: Op, net: Net, now: int, raises: bool)
    requires BodyInv(op)
    ensures Later(op, OnQosKnown(op)) && Later(op, OnQosTimedOut(op, net, now, raises).0)
  {
  }

  lemma TimeoutIsLater(op: Op, net: Net, extendRaises: bool)
    ensures Later(op, TimeoutBody(op, net, extendRaises).0)
  {
  }

  lemma StepIsLater(op: Op, net: Net, i: Input)
    requires OpInv(op)
    ensures Later(op, Step(op, net, i).0)
  {
    if !Enabled(op, i) || !Compound(i) {
      SimpleStepIsLater(op, net, i);
    } else if i.AllocateTry? {
      AllocateIsLater(op, net, i.allocFaults);
    } else {
      MonitorHasBodyInv(op);
      match i
      case QosSettled(during) =>
        QosKnownIsLater(op, net, 0, false);
        IterationIsLater(op, OnQosKnown(op), during);
      case QosTimedOut(now, raises, during) =>
        QosKnownIsLater(op, net, now, raises);
        IterationIsLater(op, OnQosTimedOut(op, net, now, raises).0, during);
      case Wake(_, attachRaises, during) =>
        WakeIsLater(op, net, attachRaises);
        IterationIsLater(op, WakeBody(op, net, attachRaises).0, during);
      case Timeout(extendRaises, during) =>
        TimeoutIsLater(op, net, extendRaises);
        IterationIsLater(op, TimeoutBody(op, net, extendRaises).0, during);
    }
  }

  /** The escalate-only rule, over any stretch of any run. */
  lemma {:induction false} EscalateOnly(op: Op, h: seq<Turn>)
    requires OpInv(op)
    ensures Later(op, Exec(op, h))
    decreases |h|
  {
    if h != [] {
      var next := Step(op, h[0].net, h[0].input).0;
      StepKeepsInv(op, h[0].net, h[0].input);
      StepIsLater(op, h[0].net, h[0].input);
      EscalateOnly(next, h[1..]);
      LaterIsTransitive(op, next, Exec(next, h[1..]));
    }
  }

  /** How many steps of a run put a new attachment on the network. */
  function AttachSteps(op: Op, h: seq<Turn>): nat
    decreases |h|
  {
    if h == [] then 0
    else
      var (op', net') := Step(op, h[0].net, h[0].input);
      (if net'.attachments.Keys <= h[0].net.attachments.Keys then 0 else 1) + AttachSteps(op', h[1..])
  }

  lemma WakeAttachesOnce(op: Op, net: Net, attachRaises: bool)
    requires BodyInv(op)
    ensures var (op', net') := WakeBody(op, net, attachRaises);
            net'.attachments.Keys <= net.attachments.Keys
            || (op.alloc.attachment.None? && op'.alloc.attachment.Some?)
  {
  }

  lemma AllocateAttachesOnce(op: Op, net: Net, f: AllocateFaults)
    requires OpInv(op) && op.pc.Allocating?
    ensures var (op', net') := OnAllocate(op, net, f);
            net'.attachments.Keys <= net.attachments.Keys
            || (op.alloc.attachment.None? && op'.alloc.attachment.Some?)
  {
    hide Judge, SessionId, AttachmentId;
  }

  lemma ReleaseAttachesNothing(net: Net, a: Alloc, f: ReleaseFaults)
    ensures Release(net, a, f).0.attachments.Keys <= net.attachments.Keys
  {
  }

  lemma StepAttachesOnce(op: Op, net: Net, i: Input)
    requires OpInv(op)
    ensures var (op', net') := Step(op, net, i);
            net'.attachments.Keys <= net.attachments.Keys
            || (op.alloc.attachment.None? && op'.alloc.attachment.Some?)
  {
    hide Create, Attach, Judge, Decide, WakeBody, OnAllocate, Release;
    if Enabled(op, i) && i.Wake? {
      MonitorHasBodyInv(op);
      WakeAttachesOnce(op, net, i.attachRaises);
    } else if Enabled(op, i) && i.AllocateTry? {
      AllocateAttachesOnce(op, net, i.allocFaults);
    } else if Enabled(op, i) && i.ReleaseTry? {
      ReleaseAttachesNothing(net, op.alloc, i.releaseFaults);
    }
  }

  /** However suspensions and congestion readings alternate, a run attaches at most once. */
  lemma {:induction false} AttachesAtMostOnce(op: Op, h: seq<Turn>)
    requires OpInv(op)
    ensures AttachSteps(op, h) <= if op.alloc.attachment.Some? then 0 else 1
    decreases |h|
  {
    if h != [] {
      var next := Step(op, h[0].net, h[0].input).0;
      StepKeepsInv(op, h[0].net, h[0].input);
      StepIsLater(op, h[0].net, h[0].input);
      StepAttachesOnce(op, h[0].net, h[0].input);
      AttachesAtMostOnce(next, h[1..]);
    }
  }

  // ── Congestion alone never buys a slice ─────────────────────────────

  /** An operation decided QOD asks for a slice under no congestion reading at all. */
  lemma NoReadingUpgradesQod(c: Criticality, g: CongestionLevel, g': CongestionLevel, safety: bool, cfg: PolicyConfig)
    requires Judge(c, g, safety, cfg).action == QOD
    ensures Judge(c, g', safety, cfg).action != QOD_AND_SLICE
  {
  }

  /** Under a QOD decision, a slice is only ever in hand after a suspension asked for it. */
  ghost predicate SuspensionAsked(trail: seq<Record>) {
    exists k | 0 <= k < |trail| ::
      trail[k].rule == Some(SUSPENDED_LOAD_PROTECT) && trail[k].action == Some(QOD_AND_SLICE)
  }

  ghost predicate QodStaysQod(op: Op) {
    op.alloc.session.Some? && op.facts.action == QOD ==>
      || (op.loop.action == QOD && op.alloc.slice.None?)
      || SuspensionAsked(op.trail)
  }

  lemma AskedStays(trail: seq<Record>, trail': seq<Record>)
    requires SuspensionAsked(trail) && trail <= trail'
    ensures SuspensionAsked(trail')
  {
    var k :| 0 <= k < |trail|
      && trail[k].rule == Some(SUSPENDED_LOAD_PROTECT) && trail[k].action == Some(QOD_AND_SLICE);
    assert trail'[k] == trail[k];
  }

  lemma WakeKeepsQod(op: Op, net: Net, attachRaises: bool)
    requires BodyInv(op) && QodStaysQod(op)
    ensures QodStaysQod(WakeBody(op, net, attachRaises).0)
  {
    var op' := WakeBody(op, net, attachRaises).0;
    WakeIsLater(op, net, attachRaises);
    if op.facts.action == QOD {
      if SuspensionAsked(op.trail) {
        AskedStays(op.trail, op'.trail);
      } else if SuspensionDiffers(op) && op.inbox.suspended {
        var k := |op.trail|;
        if op'.alloc.slice.Some? {
          assert op'.trail[k].rule == Some(SUSPENDED_LOAD_PROTECT) && op'.trail[k].action == Some(QOD_AND_SLICE);
        }
      } else if op.inbox.congestion.Some? {
        NoReadingUpgradesQod(op.facts.criticality, op.facts.congestion, op.inbox.congestion.value,
                             op.facts.safety, op.facts.cfg);
      }
    }
  }

  lemma AllocateKeepsQod(op: Op, net: Net, f: AllocateFaults)
    requires op.pc.Allocating? && QodStaysQod(op)
    ensures QodStaysQod(OnAllocate(op, net, f).0)
  {
    hide Allocate, SuspensionAsked;
    AllocatedFits(net, op.device, op.profile, op.facts.action, op.expected + GRACE_SECONDS, f);
    if SuspensionAsked(op.trail) { AskedStays(op.trail, OnAllocate(op, net, f).0.trail); }
  }

  /** Any other step leaves both the action in force and the slice as they were. */
  lemma OtherStepKeepsSlice(op: Op, net: Net, i: Input)
    requires OpInv(op) && (Enabled(op, i) ==> !i.AllocateTry? && !(i.Wake? && !op.inbox.completed))
    ensures var op' := Step(op, net, i).0;
            && op'.alloc == op.alloc && op'.loop.action == op.loop.action
            && (op.alloc.session.Some? ==> op'.facts == op.facts)
  {
    hide Judge, Decide, Release, ExtendQod, PollQod, Deliver;
  }

  lemma StepKeepsQod(op: Op, net: Net, i: Input)
    requires OpInv(op) && QodStaysQod(op)
    ensures QodStaysQod(Step(op, net, i).0)
  {
    hide Step, WakeBody, OnAllocate, SuspensionAsked, OpInv, Enabled;
    StepIsLater(op, net, i);
    var op' := Step(op, net, i).0;
    if SuspensionAsked(op.trail) {
      AskedStays(op.trail, op'.trail);
    } else if Enabled(op, i) && i.Wake? && !op.inbox.completed {
      WakeStepKeepsQod(op, net, i);
    } else if Enabled(op, i) && i.AllocateTry? {
      AllocateStepKeepsQod(op, net, i);
    } else {
      OtherStepKeepsSlice(op, net, i);
    }
  }

  lemma WakeStepKeepsQod(op: Op, net: Net, i: Input)
    requires OpInv(op) && QodStaysQod(op) && Enabled(op, i) && i.Wake? && !op.inbox.completed
    ensures QodStaysQod(Step(op, net, i).0)
  {
    hide WakeBody, SuspensionAsked, Deliver, WakeAwaits, Judge;
    MonitorHasBodyInv(op);
    WakeKeepsQod(op, net, i.attachRaises);
  }

  lemma AllocateStepKeepsQod(op: Op, net: Net, i: Input)
    requires QodStaysQod(op) && Enabled(op, i) && i.AllocateTry?
    ensures QodStaysQod(Step(op, net, i).0)
  {
    hide OnAllocate, SuspensionAsked;
    AllocateKeepsQod(op, net, i.allocFaults);
  }

  lemma {:induction false} SliceNeedsSuspension(op: Op, h: seq<Turn>)
    requires OpInv(op) && QodStaysQod(op)
    ensures QodStaysQod(Exec(op, h))
    decreases |h|
  {
    if h != [] {
      StepKeepsInv(op, h[0].net, h[0].input);
      StepKeepsQod(op, h[0].net, h[0].input);
      SliceNeedsSuspension(Step(op, h[0].net, h[0].input).0, h[1..]);
    }
  }

  /** No signal in this input says that the operation halted. */
  predicate Undisturbed(i: Input) {
    match i
    case Arrives(s) => !s.OperationSuspended?
    case QosSettled(d) => OperationSuspended !in d
    case QosTimedOut(_, _, d) => OperationSuspended !in d
    case Wake(_, _, d) => OperationSuspended !in d
    case Timeout(_, d) => OperationSuspended !in d
    case _ => true
  }

  ghost predicate NoSuspensionSignal(h: seq<Turn>) { forall k | 0 <= k < |h| :: Undisturbed(h[k].input) }

  ghost predicate NeverSuspended(op: Op) {
    && !op.inbox.suspended && !op.loop.wasSuspended
    && forall k | 0 <= k < |op.trail| :: op.trail[k].rule != Some(SUSPENDED_LOAD_PROTECT)
  }

  lemma {:induction false} DeliveryWithoutSuspension(b: Inbox, ss: seq<Signal>)
    requires !b.suspended && OperationSuspended !in ss
    ensures !Deliver(b, ss).suspended
  {
    if ss != [] { DeliveryWithoutSuspension(b, ss[..|ss| - 1]); }
  }

  lemma WakeStaysUnsuspended(op: Op, net: Net, attachRaises: bool)
    requires NeverSuspended(op)
    ensures NeverSuspended(WakeBody(op, net, attachRaises).0)
  {
  }

  lemma JudgeIsNoProtection(c: Criticality, g: CongestionLevel, safety: bool, cfg: PolicyConfig)
    ensures Judge(c, g, safety, cfg).rule != SUSPENDED_LOAD_PROTECT
  {
  }

  lemma VerdictStaysUnsuspended(op: Op, criticality: Criticality, safety: bool)
    requires NeverSuspended(op)
    ensures NeverSuspended(OnVerdict(op, criticality, safety))
  {
    hide Judge;
    JudgeIsNoProtection(criticality, op.facts.congestion, safety, op.facts.cfg);
  }

  lemma SimpleStepStaysUnsuspended(op: Op, net: Net, i: Input)
    requires NeverSuspended(op) && Undisturbed(i) && !(Compound(i) && !i.AllocateTry?)
    ensures NeverSuspended(Step(op, net, i).0)
  {
    hide OnVerdict, Allocate, Release;
    if i.Assessed? { VerdictStaysUnsuspended(op, i.criticality, i.safety); }
    if i.AssessmentFailed? {
      VerdictStaysUnsuspended(op, if op.facts.failOpen then HIGH else LOW, op.facts.failOpen);
    }
  }

  lemma StepStaysUnsuspended(op: Op, net: Net, i: Input)
    requires NeverSuspended(op) && Undisturbed(i)
    ensures NeverSuspended(Step(op, net, i).0)
  {
    hide WakeBody, Decide, Judge;
    if Enabled(op, i) {
      match i
      case Wake(_, attachRaises, during) =>
        WakeStaysUnsuspended(op, net, attachRaises);
        DeliveryWithoutSuspension(WakeBody(op, net, attachRaises).0.inbox, during);
      case Timeout(extendRaises, during) =>
        DeliveryWithoutSuspension(TimeoutBody(op, net, extendRaises).0.inbox, during);
      case QosSettled(during) => DeliveryWithoutSuspension(op.inbox, during);
      case QosTimedOut(now, raises, during) =>
        if op.alloc.session.Some? {
          DeliveryWithoutSuspension(OnQosTimedOut(op, net, now, raises).0.inbox, during);
        }
      case _ => SimpleStepStaysUnsuspended(op, net, i);
    }
  }

  lemma {:induction false} RunStaysUnsuspended(op: Op, h: seq<Turn>)
    requires NeverSuspended(op) && NoSuspensionSignal(h)
    ensures NeverSuspended(Exec(op, h))
    decreases |h|
  {
    if h != [] {
      StepStaysUnsuspended(op, h[0].net, h[0].input);
      RunStaysUnsuspended(Step(op, h[0].net, h[0].input).0, h[1..]);
    }
  }

  /**
   * Whatever congestion does: an operation decided QOD that is never reported
   * halted ends with plain QoD.
   */
  lemma CongestionAloneNeverBuysASlice(device: string, profile: string, expected: int, h: seq<Turn>)
    requires NoSuspensionSignal(h)
    ensures var op := Exec(Started(device, profile, expected), h);
            op.alloc.session.Some? && op.facts.action == QOD ==>
              op.loop.action == QOD && op.alloc.slice.None? && op.alloc.attachment.None?
  {
    var start := Started(device, profile, expected);
    EveryRunKeepsInv(start, h);
    SliceNeedsSuspension(start, h);
    RunStaysUnsuspended(start, h);
  }
}
