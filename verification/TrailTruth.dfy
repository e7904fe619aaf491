/** That a run's trail says what was so. */
module TrailTruth {
  import opened Shared
  import opened Policy
  import opened Network
  import opened Activities
  import opened Workflow
  import opened WorkflowSafety
  import opened Trail

  /** What was read and decided, by the first four records. */
  predicate DecisionIsTrue(op: Op) {
    var t := op.trail;
    && (|t| >= 1 && t[0].reachable == Some(false) ==> |t| == 2 && op.pc == Done(NothingHeld))
    && (|t| >= 2 && t[1].step == CONGESTION_CHECKED ==> t[1].congestion == Some(op.facts.congestion))
    && (|t| >= 4 ==>
          && t[2].criticality == Some(op.facts.criticality)
          && t[3].criticality == Some(op.facts.criticality) && t[3].congestion == Some(op.facts.congestion)
          && t[3].action == Some(op.facts.action) && t[3].rule.Some?
          && Decision(op.facts.action, t[3].rule.value)
             == Judge(op.facts.criticality, op.facts.congestion, op.facts.safety, op.facts.cfg))
  }

  /** A record of what is held names what is held. */
  predicate NamesTheAllocation(op: Op, r: Record) {
    && (r.step == ALLOCATED ==> r.session == op.alloc.session && (r.slice.Some? ==> r.slice == op.alloc.slice))
    && (r.step == RELEASED ==>
          r.session == op.alloc.session && r.slice == op.alloc.slice && r.qos == Some(UNAVAILABLE))
  }

  ghost predicate HoldingsAreTrue(op: Op) {
    && (|op.trail| >= 5 ==> op.trail[4].action == Some(op.facts.action))
    && (forall k | 4 <= k < |op.trail| :: NamesTheAllocation(op, op.trail[k]))
    && (op.alloc.slice.Some? ==>
          exists k | 4 <= k < |op.trail| :: op.trail[k].step == ALLOCATED && op.trail[k].slice.Some?)
  }

  ghost predicate TellsTheTruth(op: Op) { DecisionIsTrue(op) && HoldingsAreTrue(op) }

  // ── Before the allocation ───────────────────────────────────────────

  lemma EarlyTrailIs(op: Op)
    requires OpInv(op) && TrailInv(op)
    ensures op.pc.CheckingDevice? ==> |op.trail| == 0
    ensures op.pc.QueryingCongestion? ==> |op.trail| == 1
    ensures op.pc.ReadingPolicy? || op.pc.Assessing? ==> |op.trail| == 2
    ensures op.pc.Allocating? ==> |op.trail| == 4
    ensures InMonitor(op.pc) || op.pc.Releasing? ==> |op.trail| >= 5
  {
    hide Parse, Judge;
    TrailsAreOrdered(op.trail);
  }

  lemma EarlyStepTellsTheTruth(op: Op, net: Net, i: Input)
    requires OpInv(op) && TrailInv(op) && TellsTheTruth(op) && Enabled(op, i)
    requires BeforeAllocation(op.pc) && !op.pc.Allocating?
    ensures TellsTheTruth(Step(op, net, i).0)
  {
    hide Judge, Parse;
    EarlyTrailIs(op);
  }

  lemma AllocatingTellsTheTruth(op: Op, net: Net, f: AllocateFaults)
    requires OpInv(op) && TellsTheTruth(op) && op.pc.Allocating? && |op.trail| == 4
    ensures TellsTheTruth(OnAllocate(op, net, f).0)
  {
    hide Allocate, Judge;
    AllocatedFits(net, op.device, op.profile, op.facts.action, op.expected + GRACE_SECONDS, f);
    var op' := OnAllocate(op, net, f).0;
    if |op'.trail| == 5 { assert op'.trail[4].step == ALLOCATED; }
  }

  // ── Afterwards ──────────────────────────────────────────────────────

  /** More of the trail, on the same facts, and a slice at most where there was none. */
  predicate Goes(op: Op, op': Op) {
    && op.trail <= op'.trail && op'.facts == op.facts && op'.alloc.session == op.alloc.session
    && (op.alloc.slice.Some? ==> op'.alloc.slice == op.alloc.slice)
  }

  ghost predicate NewRecordsAreTrue(op: Op, op': Op)
    requires op.trail <= op'.trail
  {
    && (forall k | |op.trail| <= k < |op'.trail| :: NamesTheAllocation(op', op'.trail[k]))
    && (op.alloc.slice.None? && op'.alloc.slice.Some? ==>
          exists k | |op.trail| <= k < |op'.trail| :: op'.trail[k].step == ALLOCATED && op'.trail[k].slice.Some?)
  }

  predicate NothingReleased(t: seq<Record>) { forall k | 0 <= k < |t| :: t[k].step != RELEASED }

  lemma GoingKeepsTheTruth(op: Op, op': Op)
    requires TellsTheTruth(op) && |op.trail| >= 5 && Goes(op, op') && NewRecordsAreTrue(op, op')
    requires op'.alloc.slice == op.alloc.slice || NothingReleased(op.trail)
    ensures TellsTheTruth(op')
  {
    assert forall k | 0 <= k < |op.trail| :: op'.trail[k] == op.trail[k];
    forall k | 4 <= k < |op'.trail| ensures NamesTheAllocation(op', op'.trail[k]) {
      if k < |op.trail| { assert NamesTheAllocation(op, op.trail[k]); }
    }
    if op'.alloc.slice.Some? {
      if op.alloc.slice.Some? {
        var k :| 4 <= k < |op.trail| && op.trail[k].step == ALLOCATED && op.trail[k].slice.Some?;
        assert op'.trail[k].step == ALLOCATED && op'.trail[k].slice.Some?;
      } else {
        var k :| |op.trail| <= k < |op'.trail| && op'.trail[k].step == ALLOCATED && op'.trail[k].slice.Some?;
        assert 4 <= k;
      }
    }
  }

  lemma EscalationIsTrue(op: Op, net: Net, attachRaises: bool, r: Record)
    requires op.alloc.slice.None? && r.step == ALLOCATED
    ensures var op' := TryEscalate(op, net, attachRaises, r).0; Goes(op, op') && NewRecordsAreTrue(op, op')
  {
    hide Escalate;
    var op' := TryEscalate(op, net, attachRaises, r).0;
    if |op'.trail| > |op.trail| { assert op'.trail[|op.trail|].step == ALLOCATED; }
  }

  lemma ProtectionIsTrue(op: Op, net: Net, attachRaises: bool)
    ensures var op' := ProtectSuspended(op, net, attachRaises).0; Goes(op, op') && NewRecordsAreTrue(op, op')
  {
    hide TryEscalate, SuspensionPolicy;
    var policy := SuspensionPolicy(op);
    var decided := Emit(op, Record(DECIDED, action := Some(policy.action),
                                   reachable := Some(op.inbox.reachable != Some(false)),
                                   rule := Some(policy.rule)));
    if op.alloc.slice.None? {
      EscalationIsTrue(decided, net, attachRaises, Record(ALLOCATED, rule := Some(policy.rule)));
      var op' := TryEscalate(decided, net, attachRaises, Record(ALLOCATED, rule := Some(policy.rule))).0;
      assert op'.trail[|op.trail|] == decided.trail[|op.trail|];
    }
  }

  lemma WakeIsTrue(op: Op, net: Net, attachRaises: bool)
    ensures var op' := WakeBody(op, net, attachRaises).0; Goes(op, op') && NewRecordsAreTrue(op, op')
  {
    hide ProtectSuspended, TryEscalate, Judge;
    if SuspensionDiffers(op) && op.inbox.suspended {
      ProtectionIsTrue(op.(loop := op.loop.(wasSuspended := true)), net, attachRaises);
    } else if !SuspensionDiffers(op) && !DeviceDiffers(op) && op.alloc.slice.None? {
      EscalationIsTrue(op.(loop := op.loop.(known := op.inbox.congestion)), net, attachRaises,
                       Record(ALLOCATED, congestion := op.inbox.congestion));
    }
  }

  lemma CompleteReleaseHasDeleted(net: Net, a: Alloc, f: ReleaseFaults)
    ensures var r := Release(net, a, f).1; r.complete && a.session.Some? ==> r.qod
  {
  }

  lemma LaterStepIsTrue(op: Op, net: Net, i: Input)
    requires OpInv(op) && (Enabled(op, i) ==> !BeforeAllocation(op.pc))
    ensures var op' := Step(op, net, i).0;
            && Goes(op, op') && NewRecordsAreTrue(op, op')
            && (op'.alloc.slice != op.alloc.slice ==> op.pc.Waiting?)
  {
    hide WakeBody, TimeoutBody, Release, PollQod, Judge, Deliver, Awaited, WakeAwaits;
    if Enabled(op, i) && i.Wake? { WakeIsTrue(op, net, i.attachRaises); }
    if Enabled(op, i) && i.Timeout? { TimeoutNotes(op, net, i.extendRaises); }
    if Enabled(op, i) && i.ReleaseTry? { CompleteReleaseHasDeleted(net, op.alloc, i.releaseFaults); }
  }

  lemma WaitingHasReleasedNothing(op: Op)
    requires OpInv(op) && TrailInv(op) && op.pc.Waiting?
    ensures NothingReleased(op.trail)
  {
    hide Parse, Judge;
    TrailsAreOrdered(op.trail);
  }

  lemma StepTellsTheTruth(op: Op, net: Net, i: Input)
    requires OpInv(op) && TrailInv(op) && TellsTheTruth(op)
    ensures TellsTheTruth(Step(op, net, i).0)
  {
    hide Step, TellsTheTruth, Goes, NewRecordsAreTrue, OpInv, TrailInv;
    if !Enabled(op, i) || op.pc.Done? {
      DoneOrDisabled(op, net, i);
    } else if BeforeAllocation(op.pc) && !op.pc.Allocating? {
      EarlyStepTellsTheTruth(op, net, i);
    } else if op.pc.Allocating? {
      AllocateStepTellsTheTruth(op, net, i);
    } else {
      EarlyTrailIs(op);
      LaterStepIsTrue(op, net, i);
      if op.pc.Waiting? { WaitingHasReleasedNothing(op); }
      GoingKeepsTheTruth(op, Step(op, net, i).0);
    }
  }

  lemma DoneOrDisabled(op: Op, net: Net, i: Input)
    requires !Enabled(op, i) || op.pc.Done?
    ensures Step(op, net, i).0 == op
  {
  }

  lemma AllocateStepTellsTheTruth(op: Op, net: Net, i: Input)
    requires OpInv(op) && TrailInv(op) && TellsTheTruth(op) && op.pc.Allocating? && Enabled(op, i)
    ensures TellsTheTruth(Step(op, net, i).0)
  {
    hide OnAllocate, Parse, Judge;
    EarlyTrailIs(op);
    if i.AllocateTry? { AllocatingTellsTheTruth(op, net, i.allocFaults); }
  }

  lemma {:induction false} RunTellsTheTruth(op: Op, h: seq<Turn>)
    requires OpInv(op) && TrailInv(op) && TellsTheTruth(op)
    ensures TellsTheTruth(Exec(op, h))
    decreases |h|
  {
    hide Step, TellsTheTruth, OpInv, TrailInv;
    if h != [] {
      StepKeepsInv(op, h[0].net, h[0].input);
      StepKeepsTrail(op, h[0].net, h[0].input);
      StepTellsTheTruth(op, h[0].net, h[0].input);
      RunTellsTheTruth(Step(op, h[0].net, h[0].input).0, h[1..]);
    }
  }

  /** Every trail of every run says what was read, decided, held and given back. */
  lemma EveryTrailTellsTheTruth(device: string, profile: string, expected: int, h: seq<Turn>)
    ensures TellsTheTruth(Exec(Started(device, profile, expected), h))
  {
    hide Exec, Parse;
    StartHasInv(device, profile, expected);
    NothingWritten();
    RunTellsTheTruth(Started(device, profile, expected), h);
  }
}
