/**
 * A facility's jobs: a lifecycle of any length, advanced by timers, paused at a gate.
 *
 * Commands, timer callbacks and gate polls are one step each. A callback keeps the
 * job it was scheduled for, so a job's pending timers are kept with the job.
 */
module Facility {
  import opened Shared
  import Workflow

  const GATE_TIMEOUT_MS := 30000
  const GATE_POLL_MS := 500

  const JOB_QUEUED := "QUEUED"
  const JOB_ABORTED := "ABORTED"
  const JOB_HELD := "HELD"

  datatype GateAuthorisation = DECISION | TIMEOUT

  // ── What an industry supplies ───────────────────────────────────────

  datatype Profile = Profile(lifecycle: seq<string>, gate: Option<string>, durations: map<string, nat>)

  ghost predicate WellFormed(p: Profile) {
    && |p.lifecycle| > 0
    && (forall i, j | 0 <= i < j < |p.lifecycle| :: p.lifecycle[i] != p.lifecycle[j])
    && (forall i | 0 <= i < |p.lifecycle| :: p.lifecycle[i] !in {JOB_QUEUED, JOB_ABORTED, JOB_HELD})
    && (p.gate.Some? ==> exists g | 0 <= g < |p.lifecycle| - 1 :: p.lifecycle[g] == p.gate.value)
    && (forall i | 0 <= i < |p.lifecycle| - 1 ::
          p.gate == Some(p.lifecycle[i]) || p.lifecycle[i] in p.durations)
    && (forall s | s in p.durations :: s in p.lifecycle)
  }

  /** `indexOf`: -1 for a state that is not listed. */
  function IndexOf(states: seq<string>, s: string): (i: int)
    ensures -1 <= i < |states|
    ensures i >= 0 ==> states[i] == s
    ensures i < 0 <==> s !in states
  {
    if states == [] then -1
    else if states[0] == s then 0
    else var i := IndexOf(states[1..], s); if i < 0 then -1 else i + 1
  }

  function Finished(p: Profile): string
    requires |p.lifecycle| > 0
  {
    p.lifecycle[|p.lifecycle| - 1]
  }

  // ── One job ─────────────────────────────────────────────────────────

  datatype Job = Job(
    state: string,
    heldFrom: Option<string>,
    heldReason: Option<string>,
    operationId: Option<string>,
    dispatchedAt: Option<int>,
    gateAuthorisedAt: Option<int>,
    gateAuthorisedBy: Option<GateAuthorisation>,
    completedAt: Option<int>)

  /** A pending callback: a step scheduled from one state, or a gate poll. Times are milliseconds. */
  datatype Timer =
    | Advance(from: string, next: string, due: int)
    | Poll(deadline: int, due: int)

  /** A call made to the workflow on the job's behalf, and whether it got there. */
  datatype Call = Call(signal: Workflow.Signal, delivered: bool)

  /** `answers` and `enteredGateAt` are kept for the claims about the gate, `holdTold` for those about holding. */
  datatype Track = Track(
    job: Job,
    timers: seq<Timer>,
    calls: seq<Call>,
    answers: seq<bool>,
    enteredGateAt: int,
    holdTold: bool)

  const QUEUED := Track(Job(JOB_QUEUED, None, None, None, None, None, None, None), [], [], [], 0, false)

  predicate IsJobInFlight(p: Profile, job: Job)
    requires |p.lifecycle| > 0
  {
    job.state != JOB_QUEUED && job.state != JOB_ABORTED && job.state != Finished(p)
  }

  predicate IsLoadCommitted(p: Profile, job: Job) {
    if job.state == JOB_HELD then true
    else if p.gate.None? then false
    else
      var gate, current := IndexOf(p.lifecycle, p.gate.value), IndexOf(p.lifecycle, job.state);
      gate >= 0 && current > gate
  }

  // ── What each step does ─────────────────────────────────────────────

  datatype Reply = Fine | Conflict | Unreached

  function Tell(t: Track, signal: Workflow.Signal, delivered: bool): Track {
    if t.job.operationId.None? then t else t.(calls := t.calls + [Call(signal, delivered)])
  }

  /** The state the sequence goes to next, and how long this one lasts: both, or no timer. */
  function Scheduled(p: Profile, state: string, now: int): seq<Timer> {
    var next := IndexOf(p.lifecycle, state) + 1;
    if next < |p.lifecycle| && state in p.durations
    then [Advance(state, p.lifecycle[next], now + p.durations[state])]
    else []
  }

  function Transitioned(p: Profile, t: Track, state: string, now: int, told: bool): Track
    requires |p.lifecycle| > 0
  {
    var over := state == Finished(p) || state == JOB_ABORTED;
    var t' := t.(job := t.job.(state := state, completedAt := if over then Some(now) else t.job.completedAt));
    if p.gate == Some(state) then
      t'.(timers := t.timers + [Poll(now + GATE_TIMEOUT_MS, now)], enteredGateAt := now)
    else if over then
      Tell(t', Workflow.OperationCompleted, told)
    else
      t'.(timers := t.timers + Scheduled(p, state, now))
  }

  lemma TransitionGoes(p: Profile, t: Track, state: string, now: int, told: bool)
    requires |p.lifecycle| > 0
    ensures var job := Transitioned(p, t, state, now, told).job;
            job == t.job.(state := state, completedAt := job.completedAt)
  {
  }

  function OnDispatch(p: Profile, t: Track, now: int, operationId: string, accepted: bool, told: bool): (Track, Reply)
    requires |p.lifecycle| > 0
  {
    if t.job.state != JOB_QUEUED then (t, Conflict)
    else if !accepted then (t, Unreached)
    else
      var issued := t.(job := t.job.(operationId := Some(operationId), dispatchedAt := Some(now)));
      (Transitioned(p, issued, p.lifecycle[0], now, told), Fine)
  }

  function OnSuspend(p: Profile, t: Track, now: int, reason: string, told: bool): (Track, Reply)
    requires |p.lifecycle| > 0
  {
    if t.job.state == JOB_HELD then (t, Fine)
    else if !IsJobInFlight(p, t.job) || !IsLoadCommitted(p, t.job) then (t, Conflict)
    else
      var holding := t.(job := t.job.(heldFrom := Some(t.job.state), heldReason := Some(reason)), holdTold := told);
      var held := Transitioned(p, holding, JOB_HELD, now, told);
      (Tell(held, Workflow.OperationSuspended, told),
       if held.job.operationId.Some? && !told then Unreached else Fine)
  }

  function OnAbort(p: Profile, t: Track, now: int, told: bool): (Track, Reply)
    requires |p.lifecycle| > 0
  {
    if !IsJobInFlight(p, t.job) then (t, Conflict)
    else if IsLoadCommitted(p, t.job) then OnSuspend(p, t, now, "ABORTED_MID_OPERATION", told)
    else (Transitioned(p, t, JOB_ABORTED, now, told), Fine)
  }

  /** The workflow is told first: if that fails the job stays held. */
  function OnResume(p: Profile, t: Track, now: int, told: bool): (Track, Reply)
    requires |p.lifecycle| > 0
  {
    if t.job.state != JOB_HELD then (t, Conflict)
    else
      var restored := if t.job.heldFrom.Some? then t.job.heldFrom.value else p.lifecycle[0];
      var t' := Tell(t, Workflow.OperationResumed, told);
      if t.job.operationId.Some? && !told then (t', Unreached)
      else (Transitioned(p, t'.(job := t.job.(heldFrom := None, heldReason := None)), restored, now, told), Fine)
  }

  function GateOpened(p: Profile, t: Track, why: GateAuthorisation, now: int, told: bool): Track
    requires |p.lifecycle| > 0
  {
    var t' := t.(job := t.job.(gateAuthorisedAt := Some(now), gateAuthorisedBy := Some(why)));
    var next := IndexOf(p.lifecycle, t.job.state) + 1;
    if next < |p.lifecycle| then Transitioned(p, t', p.lifecycle[next], now, told) else t'
  }

  function OnPoll(p: Profile, t: Track, deadline: int, now: int, decided: bool, told: bool): Track
    requires |p.lifecycle| > 0
  {
    if Some(t.job.state) != p.gate then t
    else
      var found := t.job.operationId.Some? && decided;
      var t' := t.(answers := t.answers + [found]);
      if found then GateOpened(p, t', DECISION, now, told)
      else if now >= deadline then GateOpened(p, t', TIMEOUT, now, told)
      else t'.(timers := t.timers + [Poll(deadline, now + GATE_POLL_MS)])
  }

  function OnTimer(p: Profile, t: Track, timer: Timer, now: int, decided: bool, told: bool): Track
    requires |p.lifecycle| > 0
  {
    match timer
    case Advance(from, next, _) => if t.job.state != from then t else Transitioned(p, t, next, now, told)
    case Poll(deadline, _) => OnPoll(p, t, deadline, now, decided, told)
  }

  function Without(ts: seq<Timer>, k: nat): seq<Timer>
    requires k < |ts|
  {
    ts[..k] + ts[k + 1..]
  }

  /**
   * What can happen to a job. `told` is whether a call to the workflow got through,
   * `decided` what the decision log would answer, and a timer may be late but not early.
   */
  datatype Happening =
    | Dispatched(now: int, operationId: string, accepted: bool, told: bool)
    | Aborted(now: int, told: bool)
    | Suspended(now: int, reason: string, told: bool)
    | Resumed(now: int, told: bool)
    | Fired(k: nat, now: int, decided: bool, told: bool)

  function Step(p: Profile, t: Track, h: Happening): (Track, Reply)
    requires |p.lifecycle| > 0
  {
    match h
    case Dispatched(now, operationId, accepted, told) => OnDispatch(p, t, now, operationId, accepted, told)
    case Aborted(now, told) => OnAbort(p, t, now, told)
    case Suspended(now, reason, told) => OnSuspend(p, t, now, reason, told)
    case Resumed(now, told) => OnResume(p, t, now, told)
    case Fired(k, now, decided, told) =>
      if k >= |t.timers| || now < t.timers[k].due then (t, Fine)
      else (OnTimer(p, t.(timers := Without(t.timers, k)), t.timers[k], now, decided, told), Fine)
  }

  function Run(p: Profile, t: Track, hs: seq<Happening>): Track
    requires |p.lifecycle| > 0
  {
    if hs == [] then t else Step(p, Run(p, t, hs[..|hs| - 1]), hs[|hs| - 1]).0
  }

  // ── The facility system ─────────────────────────────────────────────

  class FacilityJob {
    const id: string
    var state: string
    var heldFrom: Option<string>
    var heldReason: Option<string>
    var operationId: Option<string>
    var dispatchedAt: Option<int>
    var gateAuthorisedAt: Option<int>
    var gateAuthorisedBy: Option<GateAuthorisation>
    var completedAt: Option<int>
    var timers: seq<Timer>
    var calls: seq<Call>
    ghost var answers: seq<bool>
    ghost var enteredGateAt: int
    ghost var holdTold: bool

    constructor (id: string)
      ensures this.id == id && View() == QUEUED
    {
      this.id, state := id, JOB_QUEUED;
      heldFrom, heldReason, operationId, dispatchedAt := None, None, None, None;
      gateAuthorisedAt, gateAuthorisedBy, completedAt := None, None, None;
      timers, calls, answers, enteredGateAt, holdTold := [], [], [], 0, false;
    }

    ghost function View(): Track reads this {
      Track(Job(state, heldFrom, heldReason, operationId, dispatchedAt,
                gateAuthorisedAt, gateAuthorisedBy, completedAt),
            timers, calls, answers, enteredGateAt, holdTold)
    }
  }

  class FacilitySystem {
    const lifecycle: seq<string>
    const gateState: Option<string>
    const durations: map<string, nat>
    var plan: map<string, FacilityJob>

    ghost function Supplied(): Profile { Profile(lifecycle, gateState, durations) }

    ghost predicate Valid() reads this {
      && WellFormed(Supplied())
      && (forall id | id in plan :: plan[id].id == id)
    }

    constructor (lifecycle: seq<string>, gateState: Option<string>, durations: map<string, nat>)
      requires WellFormed(Profile(lifecycle, gateState, durations))
      ensures Valid() && plan == map[] && Supplied() == Profile(lifecycle, gateState, durations)
    {
      this.lifecycle, this.gateState, this.durations, plan := lifecycle, gateState, durations, map[];
    }

    /** `None` is the NotFoundException of an id the plan does not hold. */
    method Require(jobId: string) returns (job: Option<FacilityJob>)
      ensures job == if jobId in plan then Some(plan[jobId]) else None
    {
      job := if jobId in plan then Some(plan[jobId]) else None;
    }

    method InFlight(job: FacilityJob) returns (yes: bool)
      requires Valid()
      ensures yes == IsJobInFlight(Supplied(), job.View().job)
    {
      var finished := lifecycle[|lifecycle| - 1];
      yes := job.state != JOB_QUEUED && job.state != JOB_ABORTED && job.state != finished;
    }

    method LoadCommitted(job: FacilityJob) returns (yes: bool)
      ensures yes == IsLoadCommitted(Supplied(), job.View().job)
    {
      if job.state == JOB_HELD { return true; }
      if gateState.None? { return false; }
      var gate := IndexOf(lifecycle, gateState.value);
      var current := IndexOf(lifecycle, job.state);
      yes := gate >= 0 && current > gate;
    }

    method SignalComplete(job: FacilityJob, told: bool)
      modifies job`calls
      ensures job.View() == Tell(old(job.View()), Workflow.OperationCompleted, told)
    {
      if job.operationId.None? { return; }
      job.calls := job.calls + [Call(Workflow.OperationCompleted, told)];
    }

    method HoldAtGate(job: FacilityJob, now: int)
      modifies job`timers, job`enteredGateAt
      ensures job.View() == old(job.View()).(
                timers := old(job.timers) + [Poll(now + GATE_TIMEOUT_MS, now)], enteredGateAt := now)
    {
      var deadline := now + GATE_TIMEOUT_MS;
      job.enteredGateAt := now;
      job.timers := job.timers + [Poll(deadline, now)];
    }

    method Transition(job: FacilityJob, state: string, now: int, told: bool)
      requires Valid()
      modifies job
      ensures job.View() == Transitioned(Supplied(), old(job.View()), state, now, told)
    {
      job.state := state;
      var finished := lifecycle[|lifecycle| - 1];
      if state == finished || state == JOB_ABORTED {
        job.completedAt := Some(now);
      }
      if Some(state) == gateState {
        HoldAtGate(job, now);
        return;
      }
      if state == finished || state == JOB_ABORTED {
        SignalComplete(job, told);
        return;
      }
      var next := IndexOf(lifecycle, state) + 1;
      if next < |lifecycle| && state in durations {
        job.timers := job.timers + [Advance(state, lifecycle[next], now + durations[state])];
      }
    }

    method OpenGate(job: FacilityJob, why: GateAuthorisation, now: int, told: bool)
      requires Valid()
      modifies job
      ensures job.View() == GateOpened(Supplied(), old(job.View()), why, now, told)
    {
      job.gateAuthorisedAt := Some(now);
      job.gateAuthorisedBy := Some(why);
      var next := IndexOf(lifecycle, job.state) + 1;
      if next < |lifecycle| { Transition(job, lifecycle[next], now, told); }
    }

    method PollGate(job: FacilityJob, deadline: int, now: int, decided: bool, told: bool)
      requires Valid()
      modifies job
      ensures job.View() == OnPoll(Supplied(), old(job.View()), deadline, now, decided, told)
    {
      if Some(job.state) != gateState { return; }
      var found := job.operationId.Some? && decided;
      job.answers := job.answers + [found];
      if found {
        OpenGate(job, DECISION, now, told);
        return;
      }
      if now >= deadline {
        OpenGate(job, TIMEOUT, now, told);
        return;
      }
      job.timers := job.timers + [Poll(deadline, now + GATE_POLL_MS)];
    }

    method FireTimer(job: FacilityJob, k: nat, now: int, decided: bool, told: bool)
      requires Valid()
      requires k < |job.timers| && now >= job.timers[k].due
      modifies job
      ensures job.View() == Step(Supplied(), old(job.View()), Fired(k, now, decided, told)).0
    {
      var timer := job.timers[k];
      job.timers := job.timers[..k] + job.timers[k + 1..];
      match timer
      case Advance(from, next, _) =>
        if job.state == from { Transition(job, next, now, told); }
      case Poll(deadline, _) =>
        PollGate(job, deadline, now, decided, told);
    }

    /** `None` is NotFoundException. Only the named job changes. */
    method Dispatch(jobId: string, now: int, operationId: string, accepted: bool, told: bool)
      returns (reply: Option<Reply>)
      requires Valid()
      modifies if jobId in plan then {plan[jobId]} else {}
      ensures reply.Some? <==> jobId in plan
      ensures reply.Some? ==>
                (plan[jobId].View(), reply.value)
                == Step(Supplied(), old(plan[jobId].View()), Dispatched(now, operationId, accepted, told))
    {
      var found := Require(jobId);
      if found.None? { return None; }
      var job := found.value;
      if job.state != JOB_QUEUED { return Some(Conflict); }
      if !accepted { return Some(Unreached); }
      job.operationId := Some(operationId);
      job.dispatchedAt := Some(now);
      Transition(job, lifecycle[0], now, told);
      reply := Some(Fine);
    }

    method Suspend(jobId: string, now: int, reason: string, told: bool) returns (reply: Option<Reply>)
      requires Valid()
      modifies if jobId in plan then {plan[jobId]} else {}
      ensures reply.Some? <==> jobId in plan
      ensures reply.Some? ==>
                (plan[jobId].View(), reply.value)
                == Step(Supplied(), old(plan[jobId].View()), Suspended(now, reason, told))
    {
      hide Transitioned, IndexOf, IsLoadCommitted, IsJobInFlight;
      var found := Require(jobId);
      if found.None? { return None; }
      var job := found.value;
      if job.state == JOB_HELD { return Some(Fine); }
      var inFlight := InFlight(job);
      var committed := LoadCommitted(job);
      if !inFlight || !committed { return Some(Conflict); }
      job.heldFrom := Some(job.state);
      job.heldReason := Some(reason);
      job.holdTold := told;
      TransitionGoes(Supplied(), job.View(), JOB_HELD, now, told);
      Transition(job, JOB_HELD, now, told);
      if job.operationId.Some? {
        job.calls := job.calls + [Call(Workflow.OperationSuspended, told)];
        if !told { return Some(Unreached); }
      }
      reply := Some(Fine);
    }

    method Abort(jobId: string, now: int, told: bool) returns (reply: Option<Reply>)
      requires Valid()
      modifies if jobId in plan then {plan[jobId]} else {}
      ensures reply.Some? <==> jobId in plan
      ensures reply.Some? ==>
                (plan[jobId].View(), reply.value) == Step(Supplied(), old(plan[jobId].View()), Aborted(now, told))
    {
      var found := Require(jobId);
      if found.None? { return None; }
      var job := found.value;
      var inFlight := InFlight(job);
      if !inFlight { return Some(Conflict); }
      var committed := LoadCommitted(job);
      if committed {
        reply := Suspend(jobId, now, "ABORTED_MID_OPERATION", told);
        return;
      }
      Transition(job, JOB_ABORTED, now, told);
      reply := Some(Fine);
    }

    method Resume(jobId: string, now: int, told: bool) returns (reply: Option<Reply>)
      requires Valid()
      modifies if jobId in plan then {plan[jobId]} else {}
      ensures reply.Some? <==> jobId in plan
      ensures reply.Some? ==>
                (plan[jobId].View(), reply.value) == Step(Supplied(), old(plan[jobId].View()), Resumed(now, told))
    {
      var found := Require(jobId);
      if found.None? { return None; }
      var job := found.value;
      if job.state != JOB_HELD { return Some(Conflict); }
      var restored := if job.heldFrom.Some? then job.heldFrom.value else lifecycle[0];
      if job.operationId.Some? {
        job.calls := job.calls + [Call(Workflow.OperationResumed, told)];
        if !told { return Some(Unreached); }
      }
      job.heldFrom := None;
      job.heldReason := None;
      Transition(job, restored, now, told);
      reply := Some(Fine);
    }
  }
}
