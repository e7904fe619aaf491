/** The grammar of a decision trail, and that every run writes a word of it. */
module Trail {
  import opened Shared
  import opened Policy
  import opened Network
  import opened Activities
  import opened Workflow
  import opened WorkflowSafety

  /** Where a trail stands. `slice` says whether an ALLOCATED record carried one. */
  datatype Phase =
    | Blank
    | Unreachable
    | Checked
    | Surveyed
    | Judged
    | Decided
    | Declined
    | Open(slice: bool)      // allocated, the QoD status not yet reported
    | Held(slice: bool)
    | Closed

  /** Before the allocation nothing is held, so no record may name anything. */
  function Before(r: Record, p: Phase): Option<Phase> {
    if r.session.None? && r.slice.None? then Some(p) else Option.None
  }

  function Advance(p: Phase, r: Record): Option<Phase> {
    match (p, r.step)
    case (Blank, DEVICE_CHECKED) => Before(r, if r.reachable == Some(true) then Checked else Unreachable)
    case (Unreachable, DECIDED) =>
      if r.action == Some(NONE) && r.rule == Some(GUARD_DEVICE_UNREACHABLE) then Before(r, Declined) else Option.None
    case (Checked, CONGESTION_CHECKED) => Before(r, Surveyed)
    case (Surveyed, CRITICALITY_ASSESSED) => Before(r, Judged)
    case (Judged, DECIDED) => Before(r, if r.action == Some(NONE) then Declined else Decided)
    case (Decided, ALLOCATED) => if r.session.Some? then Some(Open(r.slice.Some?)) else Option.None
    case (Open(s), QOS_STATUS_CHANGED) => Some(Held(s))
    case (Open(_), RELEASED) => Some(Closed)
    case (Held(s), DEVICE_CHECKED) => if r.reachable == Some(false) then Some(Held(s)) else Option.None
    case (Held(s), DECIDED) =>
      if r.rule == Some(SUSPENDED_LOAD_PROTECT) || (r.rule == Some(GUARD_DEVICE_UNREACHABLE) && r.action == Some(NONE))
      then Some(Held(s)) else Option.None
    case (Held(false), ALLOCATED) => if r.slice.Some? then Some(Held(true)) else Option.None
    case (Held(_), RELEASED) => Some(Closed)
    case _ => Option.None
  }

  function Parse(t: seq<Record>): Option<Phase> {
    if t == [] then Some(Blank)
    else match Parse(t[..|t| - 1])
      case None => Option.None
      case Some(p) => Advance(p, t[|t| - 1])
  }

  lemma ParseOneMore(t: seq<Record>, r: Record)
    ensures Parse(t + [r]) == if Parse(t).Some? then Advance(Parse(t).value, r) else Option.None
  {
    assert (t + [r])[..|t|] == t;
  }

  /** A trail cut short is still a trail. */
  lemma {:induction false} PrefixParses(t: seq<Record>, k: nat)
    requires Parse(t).Some? && k <= |t|
    ensures Parse(t[..k]).Some?
    decreases |t|
  {
    if k < |t| {
      PrefixParses(t[..|t| - 1], k);
      assert t[..|t| - 1][..k] == t[..k];
    } else {
      assert t[..k] == t;
    }
  }

  predicate AllocatedSince(p: Phase) { p.Open? || p.Held? || p.Closed? }

  /** What the grammar says about a whole trail, in terms of positions. */
  ghost predicate WellOrdered(t: seq<Record>, p: Phase) {
    && (forall k | 0 <= k < |t| && t[k].step == RELEASED :: k == |t| - 1)
    && (p == Closed <==> t != [] && t[|t| - 1].step == RELEASED)
    && (forall k | 0 <= k < |t| && t[k].step == ALLOCATED :: k >= 4)
    && (AllocatedSince(p) ==> |t| > 4 && t[4].step == ALLOCATED && t[3].step == DECIDED && t[3].action != Some(NONE))
    && (forall j, k | 0 <= j < k < |t| && t[j].step == ALLOCATED && t[k].step == ALLOCATED ::
          j == 4 && t[j].slice.None? && t[k].slice.Some?)
    && ((p.Open? || p.Held?) && !p.slice ==> forall k | 0 <= k < |t| && t[k].step == ALLOCATED :: t[k].slice.None?)
    && (!AllocatedSince(p) ==> |t| <= 4)
    && (p == Blank ==> |t| == 0) && (p == Checked || p == Unreachable ==> |t| == 1)
    && (p == Surveyed ==> |t| == 2) && (p == Judged ==> |t| == 3)
    && (p == Decided ==> |t| == 4 && t[3].step == DECIDED && t[3].action != Some(NONE))
  }

  lemma OneMoreIsOrdered(t: seq<Record>, p: Phase, r: Record)
    requires WellOrdered(t, p) && Advance(p, r).Some?
    ensures WellOrdered(t + [r], Advance(p, r).value)
  {
    var t', p' := t + [r], Advance(p, r).value;
    assert forall k | 0 <= k < |t| :: t'[k] == t[k];
    assert p != Closed;
    assert forall k | 0 <= k < |t| :: t[k].step != RELEASED;
  }

  /** RELEASED comes once and last; ALLOCATED at most twice, the second time for the missing slice. */
  lemma {:induction false} TrailsAreOrdered(t: seq<Record>)
    requires Parse(t).Some?
    ensures WellOrdered(t, Parse(t).value)
    decreases |t|
  {
    if t != [] {
      var init, r := t[..|t| - 1], t[|t| - 1];
      TrailsAreOrdered(init);
      assert t == init + [r];
      OneMoreIsOrdered(init, Parse(init).value, r);
    }
  }

  // ── Every run writes such a trail ───────────────────────────────────

  predicate PcMatches(op: Op, p: Phase) {
    match op.pc
    case CheckingDevice => p == Blank
    case QueryingCongestion => p == Checked
    case ReadingPolicy => p == Surveyed
    case Assessing => p == Surveyed
    case Allocating(_) => p == Decided
    case Confirming => p == Open(op.alloc.slice.Some?)
    case Waiting => p == Held(op.alloc.slice.Some?)
    case Releasing(_) => p == Open(op.alloc.slice.Some?) || p == Held(op.alloc.slice.Some?)
    case Done(o) =>
      match o
      case GaveBack => p == Closed
      case ReleaseAbandoned => p == Open(op.alloc.slice.Some?) || p == Held(op.alloc.slice.Some?)
      case NothingHeld => !AllocatedSince(p)
  }

  predicate TrailInv(op: Op) { Parse(op.trail).Some? && PcMatches(op, Parse(op.trail).value) }

  /** Between two looks at the guard, a body leaves the trail held open. */
  predicate BodyTrail(op: Op) {
    Parse(op.trail) == Some(Held(op.alloc.slice.Some?))
    || (op.crashed && Parse(op.trail) == Some(Open(op.alloc.slice.Some?)))
  }

  lemma NextIterationKeepsTrail(op: Op, during: seq<Signal>)
    requires BodyInv(op) && BodyTrail(op)
    ensures TrailInv(NextIteration(op, during))
  {
  }

  lemma TakeSliceKeepsTrail(op: Op, slice: string, attachment: string, r: Record)
    requires Parse(op.trail) == Some(Held(false)) && r.step == ALLOCATED
    ensures BodyTrail(TakeSlice(op, slice, attachment, r))
  {
    ParseOneMore(op.trail, r.(action := Some(QOD_AND_SLICE), session := op.alloc.session, slice := Some(slice)));
  }

  lemma EscalateKeepsTrail(op: Op, net: Net, attachRaises: bool, r: Record)
    requires Parse(op.trail) == Some(Held(false)) && op.alloc.slice.None? && r.step == ALLOCATED
    ensures BodyTrail(TryEscalate(op, net, attachRaises, r).0)
  {
    hide Parse;
    var outcome := Escalate(net, op.device, attachRaises).1;
    if outcome.Attached? { TakeSliceKeepsTrail(op, outcome.slice, outcome.attachment, r); }
  }

  lemma ProtectKeepsTrail(op: Op, net: Net, attachRaises: bool)
    requires Parse(op.trail) == Some(Held(op.alloc.slice.Some?))
    ensures BodyTrail(ProtectSuspended(op, net, attachRaises).0)
  {
    hide Parse;
    var policy := SuspensionPolicy(op);
    var r := Record(DECIDED, action := Some(policy.action), reachable := Some(op.inbox.reachable != Some(false)),
                    rule := Some(policy.rule));
    ParseOneMore(op.trail, r);
    if op.alloc.slice.None? {
      EscalateKeepsTrail(Emit(op, r), net, attachRaises, Record(ALLOCATED, rule := Some(policy.rule)));
    }
  }

  lemma WakeKeepsTrail(op: Op, net: Net, attachRaises: bool)
    requires Parse(op.trail) == Some(Held(op.alloc.slice.Some?))
    ensures BodyTrail(WakeBody(op, net, attachRaises).0)
  {
    hide Parse, ProtectSuspended, TryEscalate, Judge;
    if op.inbox.suspended && !op.loop.wasSuspended {
      ProtectKeepsTrail(op.(loop := op.loop.(wasSuspended := true)), net, attachRaises);
    } else if !SuspensionDiffers(op) && op.inbox.reachable == Some(false) && !op.loop.deviceLost {
      ParseOneMore(op.trail, Record(DEVICE_CHECKED, reachable := Some(false)));
    } else if !SuspensionDiffers(op) && !DeviceDiffers(op) && op.alloc.slice.None? {
      EscalateKeepsTrail(op.(loop := op.loop.(known := op.inbox.congestion)), net, attachRaises,
                         Record(ALLOCATED, congestion := op.inbox.congestion));
    }
  }

  lemma TimeoutKeepsTrail(op: Op, net: Net, extendRaises: bool)
    requires Parse(op.trail) == Some(Held(op.alloc.slice.Some?))
    ensures BodyTrail(TimeoutBody(op, net, extendRaises).0)
  {
  }

  lemma QosKnownKeepsTrail(op: Op, net: Net, now: int, raises: bool)
    requires Parse(op.trail) == Some(Open(op.alloc.slice.Some?)) && op.alloc.session.Some?
    ensures BodyTrail(OnQosKnown(op)) && BodyTrail(OnQosTimedOut(op, net, now, raises).0)
  {
    hide Parse;
    var (net', status) := PollQod(net, op.alloc.session.value, now, raises);
    ParseOneMore(op.trail, Record(QOS_STATUS_CHANGED, session := op.alloc.session, qos := op.inbox.qosStatus));
    if status.Some? {
      ParseOneMore(op.trail, Record(QOS_STATUS_CHANGED, session := op.alloc.session, qos := status));
    }
  }

  lemma AllocateKeepsTrail(op: Op, net: Net, f: AllocateFaults)
    requires OpInv(op) && op.pc.Allocating? && TrailInv(op)
    ensures TrailInv(OnAllocate(op, net, f).0)
  {
    hide Parse, Allocate, AllocInv, BooksInv, OrphanInv, LoopInv, Judge;
    AllocatedFits(net, op.device, op.profile, op.facts.action, op.expected + GRACE_SECONDS, f);
    var outcome := Allocate(net, op.device, op.profile, op.facts.action, op.expected + GRACE_SECONDS, f).1;
    if outcome.Allocated? {
      ParseOneMore(op.trail, Record(ALLOCATED, action := Some(op.facts.action), session := outcome.alloc.session,
                                    qos := Some(REQUESTED), slice := outcome.alloc.slice));
    }
  }

  lemma ReleaseKeepsTrail(op: Op, net: Net, f: ReleaseFaults)
    requires op.pc.Releasing? && TrailInv(op)
    ensures TrailInv(OnRelease(op, net, f).0)
  {
    hide Parse;
    var r := Release(net, op.alloc, f).1;
    ParseOneMore(op.trail, Record(RELEASED, session := op.alloc.session, slice := op.alloc.slice,
                                  qos := if r.qod then Some(UNAVAILABLE) else Option.None));
  }

  lemma VerdictKeepsTrail(op: Op, criticality: Criticality, safety: bool)
    requires Parse(op.trail) == Some(Surveyed) && op.alloc == NOTHING
    ensures TrailInv(OnVerdict(op, criticality, safety))
  {
    hide Parse, Judge;
    var policy := Judge(criticality, op.facts.congestion, safety, op.facts.cfg);
    var r1 := Record(CRITICALITY_ASSESSED, criticality := Some(criticality));
    var r2 := Record(DECIDED, action := Some(policy.action), reachable := Some(true),
                     criticality := Some(criticality), congestion := Some(op.facts.congestion),
                     rule := Some(policy.rule));
    ParseOneMore(op.trail, r1);
    ParseOneMore(op.trail + [r1], r2);
  }

  lemma DeviceReadKeepsTrail(op: Op, reachable: Option<bool>)
    requires Parse(op.trail) == Some(Blank) && op.alloc == NOTHING
    ensures TrailInv(OnDeviceRead(op, reachable))
  {
    hide Parse;
    if reachable.Some? {
      var r1 := Record(DEVICE_CHECKED, reachable := reachable);
      var r2 := Record(DECIDED, action := Some(NONE), reachable := Some(false), rule := Some(GUARD_DEVICE_UNREACHABLE));
      ParseOneMore(op.trail, r1);
      ParseOneMore(op.trail + [r1], r2);
    }
  }

  lemma EarlyStepKeepsTrail(op: Op, net: Net, i: Input)
    requires OpInv(op) && TrailInv(op)
    requires i.Arrives? || i.CongestionRead? || i.PolicyRead? || i.PolicyUnread?
    ensures TrailInv(Step(op, net, i).0)
  {
    hide Parse, Judge;
    if i.CongestionRead? && i.level.Some? {
      ParseOneMore(op.trail, Record(CONGESTION_CHECKED, congestion := i.level));
    }
  }

  lemma StepKeepsTrail(op: Op, net: Net, i: Input)
    requires OpInv(op) && TrailInv(op)
    ensures TrailInv(Step(op, net, i).0)
  {
    hide Parse, Judge, Decide, WakeBody, TimeoutBody, OnAllocate, OnRelease, OnVerdict, OnDeviceRead,
         OnQosTimedOut, OnQosKnown, NextIteration, BodyInv, Deliver;
    if Enabled(op, i) {
      if InMonitor(op.pc) { MonitorHasBodyInv(op); }
      match i
      case DeviceRead(r) => DeviceReadKeepsTrail(op, r);
      case Assessed(c, s) => VerdictKeepsTrail(op, c, s);
      case AssessmentFailed => VerdictKeepsTrail(op, if op.facts.failOpen then HIGH else LOW, op.facts.failOpen);
      case AllocateTry(f) => AllocateKeepsTrail(op, net, f);
      case QosSettled(during) =>
        QosKnownKeepsTrail(op, net, 0, false);
        QosKnownKeepsBody(op, net, 0, false);
        NextIterationKeepsTrail(OnQosKnown(op), during);
      case QosTimedOut(now, raises, during) =>
        QosKnownKeepsTrail(op, net, now, raises);
        QosKnownKeepsBody(op, net, now, raises);
        NextIterationKeepsTrail(OnQosTimedOut(op, net, now, raises).0, during);
      case Wake(_, attachRaises, during) =>
        WakeKeepsTrail(op, net, attachRaises);
        WakeKeepsBody(op, net, attachRaises);
        NextIterationKeepsTrail(WakeBody(op, net, attachRaises).0, during);
      case Timeout(extendRaises, during) =>
        TimeoutKeepsTrail(op, net, extendRaises);
        TimeoutKeepsBody(op, net, extendRaises);
        NextIterationKeepsTrail(TimeoutBody(op, net, extendRaises).0, during);
      case ReleaseTry(f) => ReleaseKeepsTrail(op, net, f);
      case _ => EarlyStepKeepsTrail(op, net, i);
    }
  }

  lemma QosKnownKeepsBody(op: Op, net: Net, now: int, raises: bool)
    requires BodyInv(op)
    ensures BodyInv(OnQosKnown(op)) && BodyInv(OnQosTimedOut(op, net, now, raises).0)
  {
    hide Decide, Judge;
  }

  lemma {:induction false} RunKeepsTrail(op: Op, h: seq<Turn>)
    requires OpInv(op) && TrailInv(op)
    ensures TrailInv(Exec(op, h))
    decreases |h|
  {
    if h != [] {
      StepKeepsInv(op, h[0].net, h[0].input);
      StepKeepsTrail(op, h[0].net, h[0].input);
      RunKeepsTrail(Step(op, h[0].net, h[0].input).0, h[1..]);
    }
  }

  lemma NothingWritten()
    ensures Parse([]) == Some(Blank)
  {
  }

  /** Every run's trail is a word of the grammar, and it ends in RELEASED exactly when the run gave back. */
  lemma EveryTrailIsGrammatical(device: string, profile: string, expected: int, h: seq<Turn>)
    ensures var op := Exec(Started(device, profile, expected), h);
            && Parse(op.trail).Some?
            && WellOrdered(op.trail, Parse(op.trail).value)
            && (op.pc == Done(GaveBack) <==> op.trail != [] && op.trail[|op.trail| - 1].step == RELEASED)
            && (op.alloc.session.Some? <==> AllocatedSince(Parse(op.trail).value))
  {
    hide Parse, Exec, Judge, OrphanInv, LoopInv;
    var start := Started(device, profile, expected);
    NothingWritten();
    RunKeepsTrail(start, h);
    EveryRunKeepsInv(start, h);
    TrailsAreOrdered(Exec(start, h).trail);
  }
}
