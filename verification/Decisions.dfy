/** What a run is granted, stated from what it read: the work, the network and the settings. */
module Decisions {
  import opened Shared
  import opened Policy
  import opened Network
  import opened Activities
  import opened Workflow
  import opened WorkflowSafety

  // ── The policy as a law ─────────────────────────────────────────────

  /** `g` is at least the threshold `t`, in the order Low, Medium, High. */
  predicate Reaches(g: CongestionLevel, t: CongestionLevel) { t == Low || g == High || (t == Medium && g == Medium) }

  /** Work that is granted something: never routine work, however congested the network. */
  predicate Deserves(c: Criticality, g: CongestionLevel, safety: bool, cfg: PolicyConfig) {
    || (c == HIGH && Reaches(g, cfg.qodThreshold))
    || (c == MEDIUM && Reaches(g, cfg.mediumThreshold))
    || (c != LOW && safety && cfg.alwaysProtect)
  }

  /** Work that is granted a slice on top. */
  predicate DeservesSlice(c: Criticality, g: CongestionLevel, safety: bool, cfg: PolicyConfig) {
    && cfg.enableSlice && safety && c != LOW
    && (cfg.alwaysProtect || (c == HIGH && Reaches(g, cfg.qodThreshold)))
  }

  lemma JudgementIs(c: Criticality, g: CongestionLevel, safety: bool, cfg: PolicyConfig)
    ensures Judge(c, g, safety, cfg).action == if DeservesSlice(c, g, safety, cfg) then QOD_AND_SLICE
                                               else if Deserves(c, g, safety, cfg) then QOD
                                               else NONE
  {
  }

  /** The rule on the record names the reason, so that each can be counted. */
  lemma RuleNamesTheReason(c: Criticality, g: CongestionLevel, safety: bool, cfg: PolicyConfig)
    ensures var rule, always := Judge(c, g, safety, cfg).rule, safety && cfg.alwaysProtect;
            && (rule == ROUTINE_NO_ACTION <==> c == LOW)
            && (rule == SAFETY_CRITICAL_ALWAYS_PROTECT <==> c != LOW && always)
            && (rule == MEDIUM_CRITICALITY_HIGH_CONGESTION <==>
                  c == MEDIUM && !always && Reaches(g, cfg.mediumThreshold))
            && (rule == MEDIUM_CRITICALITY_NETWORK_HEALTHY <==>
                  c == MEDIUM && !always && !Reaches(g, cfg.mediumThreshold))
            && (rule == HIGH_CRITICALITY_NETWORK_HEALTHY <==> c == HIGH && !always && !Reaches(g, cfg.qodThreshold))
            && (rule == SAFETY_CRITICAL_CONGESTED_SLICE <==>
                  c == HIGH && !always && Reaches(g, cfg.qodThreshold) && safety && cfg.enableSlice)
            && (rule == HIGH_CRITICALITY_CONGESTED <==>
                  c == HIGH && !always && Reaches(g, cfg.qodThreshold) && !(safety && cfg.enableSlice))
  {
  }

  /** A halted load is protected to the full whatever the network is like, on a device that is there. */
  lemma SuspensionJudgementIs(g: CongestionLevel, reachable: bool, cfg: PolicyConfig)
    ensures JudgeSuspended(g, reachable, cfg)
            == (if !reachable then Decision(NONE, GUARD_DEVICE_UNREACHABLE)
                else Decision(if cfg.enableSlice then QOD_AND_SLICE else QOD, SUSPENDED_LOAD_PROTECT))
  {
  }

  /** What a failed assessment stands for: the worst, or nothing worth spending on. */
  function StandIn(failOpen: bool): (Criticality, bool) { if failOpen then (HIGH, true) else (LOW, false) }

  // ── From what a run read ────────────────────────────────────────────

  /** What a run is told before it decides. */
  datatype Readings = Readings(
    congestion: CongestionLevel,
    cfg: PolicyConfig,
    failOpen: bool,
    criticality: Criticality,
    safety: bool)

  predicate ReadsAs(i: Input, r: Readings) {
    match i
    case CongestionRead(level) => level == None || level == Some(r.congestion)
    case PolicyRead(cfg, failOpen) => cfg == r.cfg && failOpen == r.failOpen
    case Assessed(criticality, safety) => criticality == r.criticality && safety == r.safety
    case AssessmentFailed => (r.criticality, r.safety) == StandIn(r.failOpen)
    case _ => true
  }

  ghost predicate RunReads(h: seq<Turn>, r: Readings) { forall k | 0 <= k < |h| :: ReadsAs(h[k].input, r) }

  /** The decision has been made: the trail has its verdict and its decision. */
  predicate Judged(op: Op) { |op.trail| >= 4 }

  predicate KnowsCongestion(pc: Pc) { pc.ReadingPolicy? || pc.Assessing? }

  predicate Knows(op: Op, r: Readings) {
    && (KnowsCongestion(op.pc) ==> op.facts.congestion == r.congestion)
    && (op.pc.Assessing? ==> op.facts.cfg == r.cfg && op.facts.failOpen == r.failOpen)
    && (Judged(op) ==> op.facts == Facts(r.congestion, r.cfg, r.failOpen, r.criticality, r.safety,
                                         Judge(r.criticality, r.congestion, r.safety, r.cfg).action))
  }

  /** Where a judged run stands: refused and over, or after its allocation, or given up on it. */
  predicate FollowsTheDecision(op: Op, r: Readings) {
    Judged(op) ==>
      if Judge(r.criticality, r.congestion, r.safety, r.cfg).action == NONE
      then op.pc == Done(NothingHeld) && op.alloc == NOTHING && !op.crashed
      else op.pc.Allocating? || op.alloc.session.Some? || op.crashed
  }

  predicate DecisionInv(op: Op, r: Readings) {
    && Knows(op, r) && FollowsTheDecision(op, r)
    && (InMonitor(op.pc) || op.pc.Releasing? || op.pc.Allocating? || op.alloc.session.Some? ==> Judged(op))
    && (op.pc.CheckingDevice? ==> |op.trail| == 0) && (op.pc.QueryingCongestion? ==> |op.trail| == 1)
    && (KnowsCongestion(op.pc) ==> |op.trail| == 2)
  }

  lemma VerdictKeepsDecision(op: Op, net: Net, i: Input, r: Readings)
    requires DecisionInv(op, r) && OpInv(op) && op.pc.Assessing? && ReadsAs(i, r)
    requires i.Assessed? || i.AssessmentFailed?
    ensures DecisionInv(Step(op, net, i).0, r)
  {
    hide Judge;
  }

  lemma EarlyStepKeepsDecision(op: Op, net: Net, i: Input, r: Readings)
    requires DecisionInv(op, r) && OpInv(op) && ReadsAs(i, r) && Enabled(op, i)
    requires BeforeAllocation(op.pc) && !op.pc.Allocating?
    ensures DecisionInv(Step(op, net, i).0, r)
  {
    hide Judge, OnVerdict;
    if i.Assessed? || i.AssessmentFailed? { VerdictKeepsDecision(op, net, i, r); }
  }

  /** From the decision on nothing is judged again, and a recorded session is not forgotten. */
  lemma LaterStepKeepsDecision(op: Op, net: Net, i: Input, r: Readings)
    requires DecisionInv(op, r) && OpInv(op) && (Enabled(op, i) ==> !BeforeAllocation(op.pc))
    ensures DecisionInv(Step(op, net, i).0, r)
  {
    hide Judge, Step, Enabled;
    StepIsLater(op, net, i);
    StepKeepsInv(op, net, i);
    if Enabled(op, i) {
      NeverJudgedTwice(op, net, i);
    } else {
      DisabledChangesNothing(op, net, i);
    }
  }

  lemma NeverJudgedTwice(op: Op, net: Net, i: Input)
    requires OpInv(op) && Enabled(op, i) && !BeforeAllocation(op.pc)
    ensures var op' := Step(op, net, i).0; op.alloc.session.Some? && !BeforeAllocation(op'.pc)
  {
    hide WakeBody, TimeoutBody, OnQosTimedOut, Release, Judge;
  }

  lemma DisabledChangesNothing(op: Op, net: Net, i: Input)
    requires !Enabled(op, i)
    ensures Step(op, net, i).0 == op
  {
  }

  lemma AllocateKeepsDecision(op: Op, net: Net, i: Input, r: Readings)
    requires DecisionInv(op, r) && OpInv(op) && op.pc.Allocating? && Enabled(op, i)
    ensures DecisionInv(Step(op, net, i).0, r)
  {
    hide Judge, Allocate;
    if i.AllocateTry? {
      AllocatedFits(net, op.device, op.profile, op.facts.action, op.expected + GRACE_SECONDS, i.allocFaults);
    }
  }

  lemma {:induction false} RunKeepsDecision(op: Op, h: seq<Turn>, r: Readings)
    requires DecisionInv(op, r) && OpInv(op) && RunReads(h, r)
    ensures DecisionInv(Exec(op, h), r)
    decreases |h|
  {
    hide Step, DecisionInv, OpInv, ReadsAs, Enabled;
    if h != [] {
      var net, i := h[0].net, h[0].input;
      if !Enabled(op, i) || !BeforeAllocation(op.pc) {
        LaterStepKeepsDecision(op, net, i, r);
      } else if op.pc.Allocating? {
        AllocateKeepsDecision(op, net, i, r);
      } else {
        EarlyStepKeepsDecision(op, net, i, r);
      }
      StepKeepsInv(op, net, i);
      RunKeepsDecision(Step(op, net, i).0, h[1..], r);
    }
  }

  /**
   * What a run is granted, from what it read. Routine work is never granted anything. A judged
   * run that has not failed and is no longer trying has a session if and only if its work
   * deserves one, and was decided a slice if and only if it deserves that.
   */
  lemma GrantedExactlyWhenDeserved(device: string, profile: string, expected: int, h: seq<Turn>, r: Readings)
    requires RunReads(h, r)
    ensures var op := Exec(Started(device, profile, expected), h);
            var deserves := Deserves(r.criticality, r.congestion, r.safety, r.cfg);
            && (op.alloc.session.Some? ==> deserves && r.criticality != LOW)
            && (Judged(op) && !op.crashed && !op.pc.Allocating? ==> (op.alloc.session.Some? <==> deserves))
            && (Judged(op) && !deserves ==> op.pc == Done(NothingHeld) && !op.crashed)
            && (op.alloc.session.Some? ==>
                  op.facts.action == if DeservesSlice(r.criticality, r.congestion, r.safety, r.cfg)
                                     then QOD_AND_SLICE else QOD)
  {
    hide Exec, Judge, OpInv;
    var start := Started(device, profile, expected);
    StartHasInv(device, profile, expected);
    RunKeepsDecision(start, h, r);
    JudgementIs(r.criticality, r.congestion, r.safety, r.cfg);
  }

  /**
   * With a worker's settings: HIGH work is granted something unless the network is Low, MEDIUM
   * work only when it is High, LOW work never, and safety-critical work above LOW always where
   * the facility asked for that. A slice is for safety-critical work alone.
   */
  lemma GrantedByAWorker(device: string, profile: string, expected: int, h: seq<Turn>, r: Readings, always: bool)
    requires RunReads(h, r) && r.cfg == WorkerConfig(always)
    ensures var op := Exec(Started(device, profile, expected), h);
            var granted := match r.criticality
                           case HIGH => r.congestion != Low || (r.safety && always)
                           case MEDIUM => r.congestion == High || (r.safety && always)
                           case LOW => false;
            && (op.alloc.session.Some? ==> granted)
            && (Judged(op) && !op.crashed && !op.pc.Allocating? ==> (op.alloc.session.Some? <==> granted))
            && (op.alloc.session.Some? ==>
                  (op.facts.action == QOD_AND_SLICE <==>
                     r.safety && (always || (r.criticality == HIGH && r.congestion != Low))))
  {
    hide Exec;
    GrantedExactlyWhenDeserved(device, profile, expected, h, r);
  }

  /** Failing closed spends nothing; failing open protects as for the worst. */
  lemma FailedAssessmentIsDecided(device: string, profile: string, expected: int, h: seq<Turn>, r: Readings)
    requires RunReads(h, r) && (r.criticality, r.safety) == StandIn(r.failOpen)
    ensures var op := Exec(Started(device, profile, expected), h);
            && (!r.failOpen ==> op.alloc.session.None?)
            && (r.failOpen && Judged(op) && !op.crashed && !op.pc.Allocating? ==>
                  (op.alloc.session.Some? <==> r.cfg.alwaysProtect || Reaches(r.congestion, r.cfg.qodThreshold)))
  {
    hide Exec;
    GrantedExactlyWhenDeserved(device, profile, expected, h, r);
  }
}
