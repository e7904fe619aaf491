/** From a piece of evidence to a resource on the network, across the graph, the policy and the workflow. */
module EndToEnd {
  import opened Shared
  import opened Policy
  import opened Network
  import opened Workflow
  import opened WorkflowSafety
  import G = Assessment

  /** The run's assessment activity succeeded, with this verdict. */
  ghost predicate AssessedAs(h: seq<Turn>, criticality: Criticality, safety: bool) {
    forall k | 0 <= k < |h| ::
      !h[k].input.AssessmentFailed? && (h[k].input.Assessed? ==> h[k].input == Assessed(criticality, safety))
  }

  /** From the verdict on, it is what the decision was made from. */
  predicate JudgedAs(op: Op, criticality: Criticality, safety: bool) {
    op.pc.Allocating? || op.alloc.session.Some? ==>
      op.facts.criticality == criticality && op.facts.safety == safety
  }

  lemma StepJudgesAs(op: Op, net: Net, i: Input, criticality: Criticality, safety: bool)
    requires OpInv(op) && JudgedAs(op, criticality, safety)
    requires !i.AssessmentFailed? && (i.Assessed? ==> i == Assessed(criticality, safety))
    ensures JudgedAs(Step(op, net, i).0, criticality, safety)
  {
    hide Judge, WakeBody, TimeoutBody;
    StepIsLater(op, net, i);
  }

  lemma {:induction false} RunJudgesAs(op: Op, h: seq<Turn>, criticality: Criticality, safety: bool)
    requires OpInv(op) && JudgedAs(op, criticality, safety) && AssessedAs(h, criticality, safety)
    ensures JudgedAs(Exec(op, h), criticality, safety)
    decreases |h|
  {
    if h != [] {
      StepKeepsInv(op, h[0].net, h[0].input);
      StepJudgesAs(op, h[0].net, h[0].input, criticality, safety);
      RunJudgesAs(Step(op, h[0].net, h[0].input).0, h[1..], criticality, safety);
    }
  }

  /** Work that is neither HIGH nor safety-critical is never decided a slice. */
  lemma ModerateWorkIsAtMostQod(c: Criticality, g: CongestionLevel, cfg: PolicyConfig)
    requires c != HIGH
    ensures Judge(c, g, false, cfg).action != QOD_AND_SLICE
  {
  }

  /**
   * A claim the network contradicts buys no slice. For every classifier, policy
   * configuration and history of congestion, signals, failures and other operations:
   * the operation is granted QoD at most, and without a reported halt keeps to it.
   */
  lemma ContradictedClaimNeverHoldsASlice(settings: G.Settings, w: G.World,
                                          device: string, profile: string, expected: int, h: seq<Turn>)
    requires G.Assess(settings, w).Some?
    requires var s := G.Explore(settings, w, G.Classify, G.INITIAL).state;
             s.evidence.Some? && G.Contradicted(s.evidence.value)
    requires var v := G.Assess(settings, w).value; AssessedAs(h, v.criticality, v.safety)
    ensures var op := Exec(Started(device, profile, expected), h);
            && (op.alloc.session.Some? ==> op.facts.action == QOD)
            && (NoSuspensionSignal(h) ==> op.alloc.slice.None? && op.alloc.attachment.None?)
  {
    hide Exec, G.Explore, Judge;
    var v, start := G.Assess(settings, w).value, Started(device, profile, expected);
    G.ContradictionCapsTheVerdict(settings, w);
    StartHasInv(device, profile, expected);
    RunJudgesAs(start, h, v.criticality, v.safety);
    EveryRunKeepsInv(start, h);
    var op := Exec(start, h);
    if op.alloc.session.Some? {
      ModerateWorkIsAtMostQod(op.facts.criticality, op.facts.congestion, op.facts.cfg);
    }
    if NoSuspensionSignal(h) { CongestionAloneNeverBuysASlice(device, profile, expected, h); }
  }
}
