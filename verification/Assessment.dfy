/** The criticality assessment graph, over an arbitrary classifier and evidence gatherer. */
module Assessment {
  import opened Shared

  datatype Verdict = Verdict(criticality: Criticality, confidence: real, safety: bool, model: string, escalated: bool)

  datatype ToolCall = ToolCall(name: string, failed: bool, result: string)

  datatype Evidence = Evidence(toolCalls: seq<ToolCall>)

  /** A tool actively disproved something the operation claimed. */
  predicate Contradicted(e: Evidence) {
    exists k | 0 <= k < |e.toolCalls| ::
      && e.toolCalls[k].name == "verify_device_location"
      && !e.toolCalls[k].failed
      && "CONTRADICTED" <= e.toolCalls[k].result
  }

  datatype Settings = Settings(threshold: real, escalationModel: Option<string>, maxAttempts: int)

  /**
   * What the graph is given: a classifier that may answer anything on each pass,
   * or raise, and what gathering evidence would bring back, if it does not raise.
   */
  datatype World = World(classify: (nat, bool, Option<string>) -> Option<Verdict>, gathered: Option<Evidence>)

  datatype Node = Classify | GatherEvidence | Escalate | Validate

  datatype State = State(
    assessment: Option<Verdict>,
    attempts: nat,
    model: Option<string>,
    enriched: bool,
    evidence: Option<Evidence>,
    trace: seq<Node>)

  const INITIAL := State(None, 0, None, false, None, [])

  predicate Truthy(m: Option<string>) { m.Some? && m.value != "" }

  // ── Nodes and edges ─────────────────────────────────────────────────

  function Route(cfg: Settings, s: State): Node {
    if s.assessment.None? then Validate
    else if s.assessment.value.safety && !s.enriched then GatherEvidence
    else if s.assessment.value.confidence >= cfg.threshold then Validate
    else if s.attempts >= cfg.maxAttempts then Validate
    else if !s.enriched then GatherEvidence
    else if Truthy(cfg.escalationModel) && !Truthy(s.model) then Escalate
    else Validate
  }

  /** A node is only entered when routing sends the graph there. */
  predicate Due(cfg: Settings, n: Node, s: State) {
    match n
    case GatherEvidence => !s.enriched
    case Escalate => Truthy(cfg.escalationModel) && !Truthy(s.model)
    case _ => true
  }

  function Visit(s: State, n: Node): State { s.(trace := s.trace + [n]) }

  function Classified(s: State, v: Verdict): State {
    Visit(s, Classify).(assessment := Some(v), attempts := s.attempts + 1)
  }

  function Enriched(s: State, e: Evidence): State {
    Visit(s, GatherEvidence).(enriched := true, evidence := Some(e))
  }

  function Escalated(cfg: Settings, s: State): State { Visit(s, Escalate).(model := cfg.escalationModel) }

  function Options(s: State): nat { (if s.enriched then 0 else 1) + (if Truthy(s.model) then 0 else 1) }

  /** The state the graph reaches validation in, or the one it was in when a node raised. */
  datatype Exploration = Settled(state: State) | RaisedAt(node: Node, state: State)

  function Explore(cfg: Settings, w: World, n: Node, s: State): Exploration
    requires Due(cfg, n, s)
    decreases 2 * Options(s) + if n == Classify then 1 else 0
  {
    match n
    case Classify =>
      var v := w.classify(s.attempts + 1, s.enriched, s.model);
      if v.None? then RaisedAt(Classify, s)
      else var s' := Classified(s, v.value); Explore(cfg, w, Route(cfg, s'), s')
    case GatherEvidence =>
      if w.gathered.None? then RaisedAt(GatherEvidence, s) else Explore(cfg, w, Classify, Enriched(s, w.gathered.value))
    case Escalate => Explore(cfg, w, Classify, Escalated(cfg, s))
    case Validate => Settled(s)
  }

  const DEGRADED := Verdict(MEDIUM, 0.0, false, "none", false)

  /** The last checks before a verdict leaves the graph. */
  function Validated(s: State): Verdict {
    if s.assessment.None? then DEGRADED
    else
      var v := s.assessment.value;
      var v1 := if s.evidence.Some? && Contradicted(s.evidence.value) && (v.criticality == HIGH || v.safety)
                then v.(criticality := MEDIUM, safety := false) else v;
      var v2 := if v1.safety && v1.criticality == LOW then v1.(criticality := HIGH) else v1;
      v2.(escalated := Truthy(s.model))
  }

  function Assess(cfg: Settings, w: World): Option<Verdict> {
    var r := Explore(cfg, w, Classify, INITIAL);
    if r.RaisedAt? then None else Some(Validated(r.state))
  }

  // ── How far it goes ─────────────────────────────────────────────────

  function Visits(t: seq<Node>, n: Node): nat {
    if t == [] then 0 else Visits(t[..|t| - 1], n) + if t[|t| - 1] == n then 1 else 0
  }

  lemma VisitsOneMore(t: seq<Node>, m: Node, n: Node)
    ensures Visits(t + [m], n) == Visits(t, n) + if m == n then 1 else 0
  {
    assert (t + [m])[..|t|] == t;
  }

  /** What the trace shows has happened: nothing twice that should happen once. */
  ghost predicate Counted(w: World, n: Node, s: State) {
    && Visits(s.trace, Classify) == s.attempts
    && Visits(s.trace, GatherEvidence) == (if s.enriched then 1 else 0)
    && Visits(s.trace, Escalate) == (if Truthy(s.model) then 1 else 0)
    && Visits(s.trace, Validate) == 0
    && s.attempts + (if n == Classify then 1 else 0)
       == 1 + (if s.enriched then 1 else 0) + (if Truthy(s.model) then 1 else 0)
    && (s.enriched <==> s.evidence.Some?) && (s.evidence.Some? ==> s.evidence == w.gathered)
    && (n != Classify ==> s.assessment.Some?)
  }

  lemma {:induction false} ExplorationIsCounted(cfg: Settings, w: World, n: Node, s: State)
    requires Due(cfg, n, s) && Counted(w, n, s)
    ensures var r := Explore(cfg, w, n, s);
            && Counted(w, if r.RaisedAt? then r.node else Validate, r.state)
            && (r.RaisedAt? ==> (r.node == Classify || r.node == GatherEvidence) && Due(cfg, r.node, r.state))
            && (r.Settled? ==> n == Validate || Route(cfg, r.state) == Validate)
    decreases 2 * Options(s) + if n == Classify then 1 else 0
  {
    match n
    case Classify =>
      var v := w.classify(s.attempts + 1, s.enriched, s.model);
      if v.Some? {
        forall m { VisitsOneMore(s.trace, Classify, m); }
        var s' := Classified(s, v.value);
        ExplorationIsCounted(cfg, w, Route(cfg, s'), s');
      }
    case GatherEvidence =>
      if w.gathered.Some? {
        forall m { VisitsOneMore(s.trace, GatherEvidence, m); }
        ExplorationIsCounted(cfg, w, Classify, Enriched(s, w.gathered.value));
      }
    case Escalate =>
      forall m { VisitsOneMore(s.trace, Escalate, m); }
      ExplorationIsCounted(cfg, w, Classify, Escalated(cfg, s));
    case Validate =>
  }

  /** How often a node was entered: to its end, or to where it raised. */
  function Entered(r: Exploration, n: Node): nat {
    Visits(r.state.trace, n) + if r.RaisedAt? && r.node == n then 1 else 0
  }

  /** At most three passes, one look at the evidence, one escalation, whatever the classifier says or raises. */
  lemma GraphIsBounded(cfg: Settings, w: World)
    ensures var r := Explore(cfg, w, Classify, INITIAL);
            && 1 <= Entered(r, Classify) <= 3
            && Entered(r, GatherEvidence) <= 1 && Entered(r, Escalate) <= 1 && Entered(r, Validate) == 0
            && (r.Settled? ==> Entered(r, Classify) == 1 + Entered(r, GatherEvidence) + Entered(r, Escalate))
  {
    ExplorationIsCounted(cfg, w, Classify, INITIAL);
  }

  /** No safety-critical verdict leaves unverified, and none leaves as LOW. */
  lemma SafetyCriticalIsVerified(cfg: Settings, w: World)
    requires Assess(cfg, w).Some? && Assess(cfg, w).value.safety
    ensures Explore(cfg, w, Classify, INITIAL).state.enriched
    ensures Assess(cfg, w).value.criticality != LOW
  {
    ExplorationIsCounted(cfg, w, Classify, INITIAL);
  }

  /** An unsure verdict leaves only when the attempts ran out or there was nothing left to try. */
  lemma UnsureOnlyWhenExhausted(cfg: Settings, w: World)
    requires Assess(cfg, w).Some? && Assess(cfg, w).value.confidence < cfg.threshold
    ensures var s := Explore(cfg, w, Classify, INITIAL).state;
            s.attempts >= cfg.maxAttempts
            || (s.enriched && (Truthy(s.model) || !Truthy(cfg.escalationModel)))
  {
    ExplorationIsCounted(cfg, w, Classify, INITIAL);
  }

  /** Contradicting evidence, once gathered, caps the verdict. */
  lemma ContradictionCapsTheVerdict(cfg: Settings, w: World)
    requires Assess(cfg, w).Some?
    requires var s := Explore(cfg, w, Classify, INITIAL).state; s.evidence.Some? && Contradicted(s.evidence.value)
    ensures Assess(cfg, w).value.criticality != HIGH && !Assess(cfg, w).value.safety
  {
  }

  /**
   * A claim of safety cannot dodge the check: if looking would contradict it, a verdict
   * that any pass called safety-critical never leaves the graph as one.
   */
  lemma UntrueSafetyClaimNeverSurvives(cfg: Settings, w: World)
    requires Assess(cfg, w).Some? && w.gathered.Some? && Contradicted(w.gathered.value)
    ensures !Assess(cfg, w).value.safety
  {
    ExplorationIsCounted(cfg, w, Classify, INITIAL);
  }

  // ── What comes out ──────────────────────────────────────────────────

  /** What the classifier answers on each pass there can be: alone, with evidence, and from the stronger model. */
  function Pass(cfg: Settings, w: World, n: nat): Option<Verdict> {
    if n == 1 then w.classify(1, false, None)
    else if n == 2 then w.classify(2, true, None)
    else w.classify(3, true, cfg.escalationModel)
  }

  /** A first answer that claims safety, or is unsure with an attempt left, is looked into. */
  predicate LooksInto(cfg: Settings, w: World) {
    && Pass(cfg, w, 1).Some?
    && (Pass(cfg, w, 1).value.safety || (Pass(cfg, w, 1).value.confidence < cfg.threshold && 1 < cfg.maxAttempts))
  }

  /** A second answer that is still unsure goes to the stronger model, if there is one and an attempt is left. */
  predicate AsksAbove(cfg: Settings, w: World) {
    && LooksInto(cfg, w) && w.gathered.Some? && Pass(cfg, w, 2).Some?
    && Pass(cfg, w, 2).value.confidence < cfg.threshold && 2 < cfg.maxAttempts && Truthy(cfg.escalationModel)
  }

  /** The answer that counts. */
  function LastPass(cfg: Settings, w: World): Option<Verdict> {
    Pass(cfg, w, if AsksAbove(cfg, w) then 3 else if LooksInto(cfg, w) then 2 else 1)
  }

  /** The path, exactly: one of three, and when each is taken, to which state, and when a node raises. */
  lemma PathIs(cfg: Settings, w: World)
    ensures var r := Explore(cfg, w, Classify, INITIAL);
            var looks, asks := LooksInto(cfg, w), AsksAbove(cfg, w);
            && (r.Settled? <==> LastPass(cfg, w).Some? && (looks ==> w.gathered.Some?))
            && (r.Settled? ==>
                  && r.state.trace == (if asks then [Classify, GatherEvidence, Classify, Escalate, Classify]
                                       else if looks then [Classify, GatherEvidence, Classify]
                                       else [Classify])
                  && r.state.assessment == LastPass(cfg, w)
                  && r.state.evidence == (if looks then w.gathered else None)
                  && Truthy(r.state.model) == asks)
  {
    var first := Pass(cfg, w, 1);
    if first.Some? {
      var s1 := Classified(INITIAL, first.value);
      assert Explore(cfg, w, Classify, INITIAL) == Explore(cfg, w, Route(cfg, s1), s1);
      if LooksInto(cfg, w) && w.gathered.Some? { SecondPassIs(cfg, w, Enriched(s1, w.gathered.value)); }
    }
  }

  lemma SecondPassIs(cfg: Settings, w: World, s: State)
    requires LooksInto(cfg, w) && w.gathered.Some? && s.enriched && s.evidence == w.gathered
    requires s.attempts == 1 && s.model == None && s.trace == [Classify, GatherEvidence]
    ensures var r := Explore(cfg, w, Classify, s);
            && (r.Settled? <==> LastPass(cfg, w).Some?)
            && (r.Settled? ==>
                  && r.state.trace == [Classify, GatherEvidence, Classify]
                                      + (if AsksAbove(cfg, w) then [Escalate, Classify] else [])
                  && r.state.assessment == LastPass(cfg, w) && r.state.evidence == w.gathered
                  && Truthy(r.state.model) == AsksAbove(cfg, w))
  {
    var second := Pass(cfg, w, 2);
    if second.Some? {
      var s2 := Classified(s, second.value);
      assert Explore(cfg, w, Classify, s) == Explore(cfg, w, Route(cfg, s2), s2);
      if AsksAbove(cfg, w) {
        var s3 := Escalated(cfg, s2);
        assert Explore(cfg, w, Escalate, s2) == Explore(cfg, w, Classify, s3);
        var third := Pass(cfg, w, 3);
        if third.Some? {
          var s4 := Classified(s3, third.value);
          assert Explore(cfg, w, Classify, s3) == Explore(cfg, w, Route(cfg, s4), s4);
        }
      }
    }
  }

  /** A location check that came back, and came back saying so; one that failed disproves nothing. */
  predicate Disproves(call: ToolCall) {
    call.name == "verify_device_location" && !call.failed && "CONTRADICTED" <= call.result
  }

  lemma ContradictedIs(e: Evidence)
    ensures Contradicted(e) <==> exists call | call in e.toolCalls :: Disproves(call)
  {
    if call :| call in e.toolCalls && Disproves(call) {
      var k :| 0 <= k < |e.toolCalls| && e.toolCalls[k] == call;
    }
    if k :| 0 <= k < |e.toolCalls| && Disproves(e.toolCalls[k]) { assert e.toolCalls[k] in e.toolCalls; }
  }

  /**
   * The verdict is the last answer, but for two corrections. Evidence that disproved the
   * operation's claim takes a HIGH or safety-critical answer to plain MEDIUM, and nothing
   * else does; a safety claim that stands is never LOW. It says whether it was escalated.
   */
  lemma SoundVerdictSurvives(cfg: Settings, w: World)
    requires Assess(cfg, w).Some?
    ensures LastPass(cfg, w).Some? && (LooksInto(cfg, w) ==> w.gathered.Some?)
    ensures var v, last := Assess(cfg, w).value, LastPass(cfg, w).value;
            var disproved := LooksInto(cfg, w) && exists call | call in w.gathered.value.toolCalls :: Disproves(call);
            && v.confidence == last.confidence && v.model == last.model
            && (v.escalated <==> Escalate in Explore(cfg, w, Classify, INITIAL).state.trace)
            && (if !disproved then
                  v.safety == last.safety
                  && v.criticality == (if last.safety && last.criticality == LOW then HIGH else last.criticality)
                else if last.criticality == HIGH || last.safety then
                  v.criticality == MEDIUM && !v.safety
                else
                  v.criticality == last.criticality && !v.safety)
  {
    hide Contradicted, Disproves;
    PathIs(cfg, w);
    if w.gathered.Some? { ContradictedIs(w.gathered.value); }
  }

  // ── The graph, run ──────────────────────────────────────────────────

  class CriticalityAssessment {
    var criticality: Criticality
    const confidence: real
    var safetyCritical: bool
    const model: string
    var escalated: bool

    constructor (v: Verdict)
      ensures View() == v
    {
      criticality, confidence, safetyCritical, model, escalated :=
        v.criticality, v.confidence, v.safety, v.model, v.escalated;
    }

    ghost function View(): Verdict reads this { Verdict(criticality, confidence, safetyCritical, model, escalated) }
  }

  /** Changes the assessment the classifier returned, in place. */
  method ValidateInPlace(a: CriticalityAssessment, evidence: Option<Evidence>, model: Option<string>, ghost s: State)
    requires s.assessment == Some(a.View()) && s.evidence == evidence && s.model == model
    modifies a
    ensures a.View() == Validated(s)
  {
    if evidence.Some? && Contradicted(evidence.value) && (a.criticality == HIGH || a.safetyCritical) {
      a.criticality := MEDIUM;
      a.safetyCritical := false;
    }
    if a.safetyCritical && a.criticality == LOW { a.criticality := HIGH; }
    a.escalated := Truthy(model);
  }

  method RunGraph(cfg: Settings, w: World) returns (result: Option<CriticalityAssessment>, trace: seq<Node>)
    ensures result.None? <==> Assess(cfg, w).None?
    ensures result.None? ==> trace == Explore(cfg, w, Classify, INITIAL).state.trace
    ensures result.Some? ==> fresh(result.value) && result.value.View() == Assess(cfg, w).value
    ensures result.Some? ==> trace == Explore(cfg, w, Classify, INITIAL).state.trace + [Validate]
  {
    var s, node := INITIAL, Classify;
    trace := [];
    while node != Validate
      invariant Due(cfg, node, s) && Explore(cfg, w, node, s) == Explore(cfg, w, Classify, INITIAL)
      invariant node != Classify ==> s.assessment.Some?
      decreases 2 * Options(s) + if node == Classify then 1 else 0
    {
      match node {
        case Classify =>
          var v := w.classify(s.attempts + 1, s.enriched, s.model);
          if v.None? { return None, s.trace; }
          s := Classified(s, v.value);
          node := Route(cfg, s);
        case GatherEvidence =>
          if w.gathered.None? { return None, s.trace; }
          s, node := Enriched(s, w.gathered.value), Classify;
        case Escalate =>
          s, node := Escalated(cfg, s), Classify;
      }
    }
    var assessment := new CriticalityAssessment(s.assessment.value);
    ValidateInPlace(assessment, s.evidence, s.model, s);
    result, trace := Some(assessment), s.trace + [Validate];
  }
}
