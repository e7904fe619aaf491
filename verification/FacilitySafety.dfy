/** What holds of a job in every run: where it can be, what lets it past the gate, when it is over. */
module FacilitySafety {
  import opened Shared
  import opened Facility

  predicate AtGate(p: Profile, job: Job) { p.gate == Some(job.state) }

  predicate Over(p: Profile, job: Job)
    requires |p.lifecycle| > 0
  {
    job.state == JOB_ABORTED || job.state == Finished(p)
  }

  /** How far along the job is: 0 before dispatch; a held job is where it halted. */
  function Place(p: Profile, job: Job): nat {
    if job.state == JOB_HELD && job.heldFrom.Some?
    then IndexOf(p.lifecycle, job.heldFrom.value) + 1
    else IndexOf(p.lifecycle, job.state) + 1
  }

  // ── The invariant ───────────────────────────────────────────────────

  ghost predicate JobInv(p: Profile, job: Job)
    requires |p.lifecycle| > 0
  {
    && (job.state in p.lifecycle || job.state in {JOB_QUEUED, JOB_ABORTED, JOB_HELD})
    && (job.state == JOB_QUEUED <==> job.operationId.None?)
    && (job.state == JOB_HELD <==> job.heldFrom.Some?)
    && (job.heldFrom.Some? ==>
          && job.heldFrom.value in p.lifecycle && job.heldFrom.value != Finished(p)
          && p.gate.Some? && IndexOf(p.lifecycle, job.heldFrom.value) > IndexOf(p.lifecycle, p.gate.value))
    && (job.gateAuthorisedBy.Some? <==> IsLoadCommitted(p, job))
    && (job.gateAuthorisedAt.Some? <==> job.gateAuthorisedBy.Some?)
    && (job.completedAt.Some? <==> Over(p, job))
  }

  /** The completion is the last call, made when the job is over and not before. */
  ghost predicate CallsInv(p: Profile, t: Track)
    requires |p.lifecycle| > 0
  {
    && (forall k | 0 <= k < |t.calls| ::
          t.calls[k].signal == Workflow.OperationCompleted <==> Over(p, t.job) && k == |t.calls| - 1)
    && (Over(p, t.job) ==> t.calls != [])
    && (t.job.state == JOB_QUEUED ==> t.calls == [])
  }

  predicate StepTimer(p: Profile, timer: Timer)
    requires timer.Advance?
  {
    var i := IndexOf(p.lifecycle, timer.from);
    && 0 <= i < |p.lifecycle| - 1
    && p.gate != Some(timer.from)
    && timer.next == p.lifecycle[i + 1]
  }

  ghost predicate StepTimers(p: Profile, ts: seq<Timer>) {
    forall k | 0 <= k < |ts| && ts[k].Advance? :: StepTimer(p, ts[k])
  }

  ghost predicate NoPoll(ts: seq<Timer>) { forall k | 0 <= k < |ts| :: ts[k].Advance? }

  ghost predicate LonePoll(ts: seq<Timer>, j: nat) {
    && j < |ts| && ts[j].Poll?
    && (forall k | 0 <= k < |ts| && k != j :: ts[k].Advance?)
  }

  /** The pending poll of a job at its gate: polls so far were half a second apart at least. */
  predicate PollInv(t: Track, timer: Timer) {
    && timer.Poll?
    && timer.deadline == t.enteredGateAt + GATE_TIMEOUT_MS
    && timer.due >= t.enteredGateAt + GATE_POLL_MS * |t.answers|
  }

  ghost predicate TimersInv(p: Profile, t: Track) {
    && StepTimers(p, t.timers)
    && (AtGate(p, t.job) ==> exists j: nat :: LonePoll(t.timers, j) && PollInv(t, t.timers[j]))
    && (!AtGate(p, t.job) && t.job.state != JOB_ABORTED ==> NoPoll(t.timers))
  }

  ghost predicate Unanswered(answers: seq<bool>) { forall k | 0 <= k < |answers| :: !answers[k] }

  ghost predicate GateAnswered(t: Track) {
    && 1 <= |t.answers| <= 61
    && Unanswered(t.answers[..|t.answers| - 1])
    && (t.job.gateAuthorisedBy == Some(DECISION) <==> t.answers[|t.answers| - 1])
    && (t.job.gateAuthorisedBy == Some(TIMEOUT) ==>
          t.job.gateAuthorisedAt.Some? && t.job.gateAuthorisedAt.value >= t.enteredGateAt + GATE_TIMEOUT_MS)
  }

  ghost predicate GateInv(p: Profile, t: Track) {
    if IsLoadCommitted(p, t.job) then GateAnswered(t)
    else if AtGate(p, t.job) || t.job.state == JOB_ABORTED then
      Unanswered(t.answers) && |t.answers| <= 60
    else
      t.answers == []
  }

  ghost predicate Inv(p: Profile, t: Track) {
    && WellFormed(p)
    && JobInv(p, t.job) && CallsInv(p, t) && TimersInv(p, t) && GateInv(p, t)
    && (t.job.state == JOB_QUEUED ==> t == QUEUED)
  }

  // ── Small facts ─────────────────────────────────────────────────────

  lemma IndexIs(p: Profile, i: nat)
    requires WellFormed(p) && i < |p.lifecycle|
    ensures IndexOf(p.lifecycle, p.lifecycle[i]) == i
  {
  }

  lemma GateIs(p: Profile)
    requires WellFormed(p) && p.gate.Some?
    ensures 0 <= IndexOf(p.lifecycle, p.gate.value) < |p.lifecycle| - 1
    ensures p.gate.value != Finished(p)
  {
    var g :| 0 <= g < |p.lifecycle| - 1 && p.lifecycle[g] == p.gate.value;
    IndexIs(p, g);
  }

  lemma WithoutStepTimers(p: Profile, ts: seq<Timer>, k: nat)
    requires k < |ts| && StepTimers(p, ts)
    ensures StepTimers(p, Without(ts, k))
    ensures NoPoll(ts) ==> NoPoll(Without(ts, k))
    ensures LonePoll(ts, k) ==> NoPoll(Without(ts, k))
  {
  }

  lemma WithoutLonePoll(ts: seq<Timer>, k: nat, j: nat)
    requires k < |ts| && LonePoll(ts, j) && k != j
    ensures var i := if k < j then j - 1 else j; LonePoll(Without(ts, k), i) && Without(ts, k)[i] == ts[j]
  {
  }

  // ── Each transition keeps it ────────────────────────────────────────

  /** Removing a timer that is not this gate's poll. */
  lemma DropTimer(p: Profile, t: Track, k: nat)
    requires Inv(p, t) && k < |t.timers| && (AtGate(p, t.job) ==> t.timers[k].Advance?)
    ensures Inv(p, t.(timers := Without(t.timers, k)))
  {
    hide IndexOf, WellFormed, StepTimer;
    WithoutStepTimers(p, t.timers, k);
    if AtGate(p, t.job) {
      var j: nat :| LonePoll(t.timers, j) && PollInv(t, t.timers[j]);
      WithoutLonePoll(t.timers, k, j);
    }
  }

  // ── Entering a state of the lifecycle ───────────────────────────────

  predicate PastGate(p: Profile, i: int) { p.gate.Some? && i > IndexOf(p.lifecycle, p.gate.value) }

  /** Ready to enter the state at `i`: authorised exactly when that is past the gate. */
  ghost predicate Ready(p: Profile, t: Track, i: nat) {
    && t.job.operationId.Some? && t.job.heldFrom.None? && t.job.completedAt.None?
    && (t.job.gateAuthorisedBy.Some? <==> PastGate(p, i))
    && (t.job.gateAuthorisedAt.Some? <==> t.job.gateAuthorisedBy.Some?)
    && (forall k | 0 <= k < |t.calls| :: t.calls[k].signal != Workflow.OperationCompleted)
    && StepTimers(p, t.timers) && NoPoll(t.timers)
    && (if PastGate(p, i) then GateAnswered(t) else t.answers == [])
  }

  /** Where a state of the lifecycle stands to the gate and to the end. */
  lemma Standing(p: Profile, job: Job, i: nat)
    requires WellFormed(p) && i < |p.lifecycle| && job.state == p.lifecycle[i]
    ensures IndexOf(p.lifecycle, job.state) == i
    ensures IsLoadCommitted(p, job) <==> PastGate(p, i)
    ensures AtGate(p, job) ==> !PastGate(p, i) && i < |p.lifecycle| - 1
    ensures Over(p, job) <==> i == |p.lifecycle| - 1
    ensures job.state in p.lifecycle && job.state !in {JOB_QUEUED, JOB_ABORTED, JOB_HELD}
  {
    IndexIs(p, i);
    if p.gate.Some? { GateIs(p); }
  }

  lemma ScheduledIsStep(p: Profile, i: nat, now: int)
    requires WellFormed(p) && i < |p.lifecycle| && p.gate != Some(p.lifecycle[i])
    ensures StepTimers(p, Scheduled(p, p.lifecycle[i], now)) && NoPoll(Scheduled(p, p.lifecycle[i], now))
  {
    IndexIs(p, i);
  }

  lemma EnterKeeps(p: Profile, t: Track, i: nat, now: int, told: bool)
    requires WellFormed(p) && i < |p.lifecycle| && Ready(p, t, i)
    ensures Inv(p, Transitioned(p, t, p.lifecycle[i], now, told))
  {
    hide IndexOf, WellFormed, StepTimer, IsLoadCommitted, PastGate, Scheduled;
    var t' := Transitioned(p, t, p.lifecycle[i], now, told);
    Standing(p, t'.job, i);
    if AtGate(p, t'.job) {
      assert LonePoll(t'.timers, |t.timers|) && PollInv(t', t'.timers[|t.timers|]);
    } else {
      ScheduledIsStep(p, i, now);
    }
    assert JobInv(p, t'.job);
    assert CallsInv(p, t');
    assert TimersInv(p, t');
    assert GateInv(p, t');
  }

  // ── Each step keeps it ──────────────────────────────────────────────

  /**
   * One step of a job: it stays, goes on to the next place, or is dropped. Only a job
   * with nothing committed can be dropped, and a job that is over does not change.
   */
  ghost predicate Moved(p: Profile, before: Track, after: Track)
    requires |p.lifecycle| > 0
  {
    && (Over(p, before.job) ==> after.job == before.job && after.calls == before.calls)
    && (after.job.state == JOB_ABORTED && before.job.state != JOB_ABORTED ==> !IsLoadCommitted(p, before.job))
    && (after.job.state != JOB_ABORTED ==> Place(p, before.job) <= Place(p, after.job) <= Place(p, before.job) + 1)
    && (IsLoadCommitted(p, before.job) ==> IsLoadCommitted(p, after.job))
  }

  lemma PlaceIs(p: Profile, job: Job, i: nat)
    requires WellFormed(p) && i < |p.lifecycle| && job.state == p.lifecycle[i]
    ensures Place(p, job) == i + 1
  {
    IndexIs(p, i);
  }

  lemma OffTheLifecycle(p: Profile)
    requires WellFormed(p)
    ensures IndexOf(p.lifecycle, JOB_QUEUED) == -1 && IndexOf(p.lifecycle, JOB_ABORTED) == -1
    ensures IndexOf(p.lifecycle, JOB_HELD) == -1
    ensures Finished(p) in p.lifecycle && Finished(p) !in {JOB_QUEUED, JOB_ABORTED, JOB_HELD}
    ensures p.gate.Some? ==> p.gate.value in p.lifecycle && p.gate.value !in {JOB_QUEUED, JOB_ABORTED, JOB_HELD}
    ensures JOB_HELD !in p.durations
  {
  }

  lemma DispatchKeeps(p: Profile, t: Track, now: int, operationId: string, accepted: bool, told: bool)
    requires Inv(p, t)
    ensures var t' := OnDispatch(p, t, now, operationId, accepted, told).0; Inv(p, t') && Moved(p, t, t')
  {
    if t.job.state == JOB_QUEUED && accepted {
      var issued := t.(job := t.job.(operationId := Some(operationId), dispatchedAt := Some(now)));
      EnterKeeps(p, issued, 0, now, told);
      OffTheLifecycle(p);
      PlaceIs(p, Transitioned(p, issued, p.lifecycle[0], now, told).job, 0);
    }
  }

  lemma DropKeeps(p: Profile, t: Track, now: int, told: bool)
    requires Inv(p, t) && IsJobInFlight(p, t.job) && !IsLoadCommitted(p, t.job)
    ensures var t' := Transitioned(p, t, JOB_ABORTED, now, told); Inv(p, t') && Moved(p, t, t')
  {
    hide IndexOf, WellFormed, StepTimer;
    OffTheLifecycle(p);
  }

  lemma HoldKeeps(p: Profile, t: Track, now: int, reason: string, told: bool)
    requires Inv(p, t) && t.job.state != JOB_HELD && IsJobInFlight(p, t.job) && IsLoadCommitted(p, t.job)
    ensures var t' := OnSuspend(p, t, now, reason, told).0; Inv(p, t') && Moved(p, t, t')
  {
    hide IndexOf, WellFormed, StepTimer;
    OffTheLifecycle(p);
  }

  lemma SuspendKeeps(p: Profile, t: Track, now: int, reason: string, told: bool)
    requires Inv(p, t)
    ensures var t' := OnSuspend(p, t, now, reason, told).0; Inv(p, t') && Moved(p, t, t')
  {
    hide IndexOf, StepTimer;
    if t.job.state != JOB_HELD && IsJobInFlight(p, t.job) && IsLoadCommitted(p, t.job) {
      HoldKeeps(p, t, now, reason, told);
    }
  }

  lemma AbortKeeps(p: Profile, t: Track, now: int, told: bool)
    requires Inv(p, t)
    ensures var t' := OnAbort(p, t, now, told).0; Inv(p, t') && Moved(p, t, t')
  {
    hide IndexOf, StepTimer;
    if IsJobInFlight(p, t.job) {
      if IsLoadCommitted(p, t.job) {
        SuspendKeeps(p, t, now, "ABORTED_MID_OPERATION", told);
      } else {
        DropKeeps(p, t, now, told);
      }
    }
  }

  lemma ResumeKeeps(p: Profile, t: Track, now: int, told: bool)
    requires Inv(p, t)
    ensures var t' := OnResume(p, t, now, told).0; Inv(p, t') && Moved(p, t, t')
  {
    if t.job.state == JOB_HELD {
      var heard := Tell(t, Workflow.OperationResumed, told);
      var i := IndexOf(p.lifecycle, t.job.heldFrom.value);
      if told {
        var ready := heard.(job := t.job.(heldFrom := None, heldReason := None));
        OffTheLifecycle(p);
        EnterKeeps(p, ready, i, now, told);
        Standing(p, Transitioned(p, ready, p.lifecycle[i], now, told).job, i);
      }
    }
  }

  lemma StepTimerKeeps(p: Profile, t: Track, k: nat, now: int, told: bool)
    requires Inv(p, t) && k < |t.timers| && t.timers[k].Advance?
    ensures var t' := OnTimer(p, t.(timers := Without(t.timers, k)), t.timers[k], now, false, told);
            Inv(p, t') && Moved(p, t, t')
  {
    hide Transitioned, IndexOf, WellFormed;
    DropTimer(p, t, k);
    var dropped := t.(timers := Without(t.timers, k));
    if t.job.state == t.timers[k].from {
      var i := IndexOf(p.lifecycle, t.job.state);
      Standing(p, t.job, i);
      EnterKeeps(p, dropped, i + 1, now, told);
      TransitionGoes(p, dropped, p.lifecycle[i + 1], now, told);
      Standing(p, Transitioned(p, dropped, p.lifecycle[i + 1], now, told).job, i + 1);
    }
  }

  lemma PollKeeps(p: Profile, t: Track, k: nat, now: int, decided: bool, told: bool)
    requires Inv(p, t) && k < |t.timers| && t.timers[k].Poll? && now >= t.timers[k].due
    ensures var t' := OnTimer(p, t.(timers := Without(t.timers, k)), t.timers[k], now, decided, told);
            Inv(p, t') && Moved(p, t, t')
  {
    if !AtGate(p, t.job) {
      DropTimer(p, t, k);
    } else {
      PollAtGateKeeps(p, t, k, now, decided, told);
    }
  }

  /** A poll that finds no decision before the deadline waits; any other opens the gate. */
  lemma PollAtGateKeeps(p: Profile, t: Track, k: nat, now: int, decided: bool, told: bool)
    requires Inv(p, t) && k < |t.timers| && t.timers[k].Poll? && now >= t.timers[k].due && AtGate(p, t.job)
    ensures var t' := OnTimer(p, t.(timers := Without(t.timers, k)), t.timers[k], now, decided, told);
            Inv(p, t') && Moved(p, t, t')
  {
    hide Transitioned, StepTimer, IndexOf, WellFormed, Inv, Moved, IsLoadCommitted;
    GateHasNext(p, t);
    if decided || now >= t.timers[k].deadline {
      OpeningKeeps(p, t, k, now, decided, told);
    } else {
      WaitingKeeps(p, t, k, now);
    }
  }

  lemma GateHasNext(p: Profile, t: Track)
    requires Inv(p, t) && AtGate(p, t.job)
    ensures 0 <= IndexOf(p.lifecycle, t.job.state) < |p.lifecycle| - 1 && t.job.operationId.Some?
  {
    GateIs(p);
    OffTheLifecycle(p);
  }

  lemma OpeningKeeps(p: Profile, t: Track, k: nat, now: int, decided: bool, told: bool)
    requires Inv(p, t) && k < |t.timers| && t.timers[k].Poll? && now >= t.timers[k].due && AtGate(p, t.job)
    requires decided || now >= t.timers[k].deadline
    requires IndexOf(p.lifecycle, t.job.state) + 1 < |p.lifecycle|
    ensures var open := t.(timers := Without(t.timers, k), answers := t.answers + [decided],
                           job := t.job.(gateAuthorisedAt := Some(now),
                                         gateAuthorisedBy := Some(if decided then DECISION else TIMEOUT)));
            var t' := Transitioned(p, open, p.lifecycle[IndexOf(p.lifecycle, t.job.state) + 1], now, told);
            Inv(p, t') && Moved(p, t, t')
  {
    hide Transitioned, StepTimer;
    var g := IndexOf(p.lifecycle, t.job.state);
    GateIs(p);
    Standing(p, t.job, g);
    WithoutStepTimers(p, t.timers, k);
    assert LonePoll(t.timers, k) && PollInv(t, t.timers[k]);
    var why := if decided then DECISION else TIMEOUT;
    var open := t.(timers := Without(t.timers, k), answers := t.answers + [decided],
                   job := t.job.(gateAuthorisedAt := Some(now), gateAuthorisedBy := Some(why)));
    assert open.answers[..|t.answers|] == t.answers;
    EnterKeeps(p, open, g + 1, now, told);
    TransitionGoes(p, open, p.lifecycle[g + 1], now, told);
    Standing(p, Transitioned(p, open, p.lifecycle[g + 1], now, told).job, g + 1);
  }

  lemma WaitingKeeps(p: Profile, t: Track, k: nat, now: int)
    requires Inv(p, t) && k < |t.timers| && t.timers[k].Poll? && AtGate(p, t.job)
    requires t.timers[k].due <= now < t.timers[k].deadline
    ensures var t' := t.(timers := Without(t.timers, k) + [Poll(t.timers[k].deadline, now + GATE_POLL_MS)],
                         answers := t.answers + [false]);
            Inv(p, t') && Moved(p, t, t')
  {
    hide StepTimer, IndexOf;
    GateIsNotCommitted(p, t.job);
    WithoutStepTimers(p, t.timers, k);
    assert LonePoll(t.timers, k) && PollInv(t, t.timers[k]);
    var rest := Without(t.timers, k);
    var t' := t.(timers := rest + [Poll(t.timers[k].deadline, now + GATE_POLL_MS)], answers := t.answers + [false]);
    assert LonePoll(t'.timers, |rest|) && PollInv(t', t'.timers[|rest|]);
    assert StepTimers(p, t'.timers);
  }

  lemma StepKeepsInv(p: Profile, t: Track, h: Happening)
    requires Inv(p, t)
    ensures Inv(p, Step(p, t, h).0) && Moved(p, t, Step(p, t, h).0)
  {
    hide IndexOf, OnDispatch, OnAbort, OnSuspend, OnResume, OnPoll;
    match h
    case Dispatched(now, operationId, accepted, told) => DispatchKeeps(p, t, now, operationId, accepted, told);
    case Aborted(now, told) => AbortKeeps(p, t, now, told);
    case Suspended(now, reason, told) => SuspendKeeps(p, t, now, reason, told);
    case Resumed(now, told) => ResumeKeeps(p, t, now, told);
    case Fired(k, now, decided, told) =>
      if k < |t.timers| && now >= t.timers[k].due {
        if t.timers[k].Advance? { StepTimerKeeps(p, t, k, now, told); } else { PollKeeps(p, t, k, now, decided, told); }
      }
  }

  // ── Whole runs ──────────────────────────────────────────────────────

  lemma {:induction false} EveryRunKeepsInv(p: Profile, hs: seq<Happening>)
    requires WellFormed(p)
    ensures Inv(p, Run(p, QUEUED, hs))
  {
    if hs == [] {
      OffTheLifecycle(p);
    } else {
      EveryRunKeepsInv(p, hs[..|hs| - 1]);
      StepKeepsInv(p, Run(p, QUEUED, hs[..|hs| - 1]), hs[|hs| - 1]);
    }
  }

  /** Never past the gate without an authorisation, and held only between the gate and the end. */
  lemma GateIsNeverJumped(p: Profile, hs: seq<Happening>)
    requires WellFormed(p)
    ensures var job := Run(p, QUEUED, hs).job;
            && (job.gateAuthorisedBy.Some? <==> IsLoadCommitted(p, job))
            && (p.gate.Some? && Place(p, job) > IndexOf(p.lifecycle, p.gate.value) + 1 ==> job.gateAuthorisedBy.Some?)
            && (job.state == JOB_HELD ==>
                  && p.gate.Some?
                  && IndexOf(p.lifecycle, p.gate.value) + 1 < Place(p, job) < |p.lifecycle|)
  {
    hide Run, StepTimer;
    EveryRunKeepsInv(p, hs);
    OffTheLifecycle(p);
    IndexIs(p, |p.lifecycle| - 1);
  }

  /** How a run can get from one track to a later one, `n` steps on. */
  ghost predicate Ahead(p: Profile, before: Track, after: Track, n: nat)
    requires |p.lifecycle| > 0
  {
    && (after.job.state != JOB_ABORTED ==> Place(p, before.job) <= Place(p, after.job) <= Place(p, before.job) + n)
    && (IsLoadCommitted(p, before.job) ==> IsLoadCommitted(p, after.job) && after.job.state != JOB_ABORTED)
    && (Over(p, before.job) ==> after.job == before.job && after.calls == before.calls)
  }

  lemma AheadThen(p: Profile, a: Track, b: Track, c: Track, n: nat)
    requires WellFormed(p) && Ahead(p, a, b, n) && Moved(p, b, c)
    ensures Ahead(p, a, c, n + 1)
  {
    hide IndexOf, IsLoadCommitted, Place;
    if IsLoadCommitted(p, c.job) { CommittedIsNotAborted(p, c.job); }
  }

  lemma CommittedIsNotAborted(p: Profile, job: Job)
    requires WellFormed(p) && IsLoadCommitted(p, job)
    ensures job.state != JOB_ABORTED
  {
    OffTheLifecycle(p);
  }

  /** From any point of a run to any later one: places are taken in order, and over is over. */
  lemma {:induction false} OnlyForward(p: Profile, hs: seq<Happening>, more: seq<Happening>)
    requires WellFormed(p)
    ensures Ahead(p, Run(p, QUEUED, hs), Run(p, QUEUED, hs + more), |more|)
  {
    hide Step, IndexOf, Place, IsLoadCommitted, Inv;
    var before := Run(p, QUEUED, hs);
    if more == [] {
      assert hs + more == hs;
      if IsLoadCommitted(p, before.job) { CommittedIsNotAborted(p, before.job); }
    } else {
      var n := |more| - 1;
      OnlyForward(p, hs, more[..n]);
      EveryRunKeepsInv(p, hs + more[..n]);
      assert (hs + more)[..|hs + more| - 1] == hs + more[..n];
      var t := Run(p, QUEUED, hs + more[..n]);
      StepKeepsInv(p, t, more[n]);
      AheadThen(p, before, t, Run(p, QUEUED, hs + more), n);
    }
  }

  function Completions(calls: seq<Call>): nat {
    if calls == [] then 0
    else Completions(calls[..|calls| - 1]) + if calls[|calls| - 1].signal == Workflow.OperationCompleted then 1 else 0
  }

  lemma {:induction false} NoCompletions(calls: seq<Call>)
    requires forall k | 0 <= k < |calls| :: calls[k].signal != Workflow.OperationCompleted
    ensures Completions(calls) == 0
  {
    if calls != [] { NoCompletions(calls[..|calls| - 1]); }
  }

  /** At every point of every run the completions signalled are one if the job is over, none if not. */
  lemma CompletionIsSignalledOnce(p: Profile, hs: seq<Happening>)
    requires WellFormed(p)
    ensures var t := Run(p, QUEUED, hs); Completions(t.calls) == if Over(p, t.job) then 1 else 0
  {
    hide IndexOf, Run;
    EveryRunKeepsInv(p, hs);
    var t := Run(p, QUEUED, hs);
    if Over(p, t.job) { NoCompletions(t.calls[..|t.calls| - 1]); } else { NoCompletions(t.calls); }
  }

  // ── The gate ────────────────────────────────────────────────────────

  /** What a poll of the gate comes to, whenever it is made. */
  ghost predicate LeavesOrCounts(p: Profile, before: Track, k: nat, now: int, decided: bool, told: bool)
    requires |p.lifecycle| > 0
  {
    var after := Step(p, before, Fired(k, now, decided, told)).0;
    if decided || now >= before.enteredGateAt + 30_000 || |before.answers| == 60 then
      && IsLoadCommitted(p, after.job)
      && after.job.gateAuthorisedBy == Some(if decided then DECISION else TIMEOUT)
      && after.job.gateAuthorisedAt == Some(now)
    else
      AtGate(p, after.job) && |after.answers| == |before.answers| + 1
  }

  lemma PollLeavesOrCounts(p: Profile, t: Track, k: nat, now: int, decided: bool, told: bool)
    requires Inv(p, t) && AtGate(p, t.job) && k < |t.timers| && t.timers[k].Poll? && now >= t.timers[k].due
    ensures LeavesOrCounts(p, t, k, now, decided, told)
  {
    hide StepTimer, Transitioned, IndexOf, IsLoadCommitted, WellFormed;
    var g := IndexOf(p.lifecycle, t.job.state);
    GateIs(p);
    Standing(p, t.job, g);
    assert PollInv(t, t.timers[k]);
    if decided || now >= t.enteredGateAt + GATE_TIMEOUT_MS {
      var why := if decided then DECISION else TIMEOUT;
      var open := t.(timers := Without(t.timers, k), answers := t.answers + [decided],
                     job := t.job.(gateAuthorisedAt := Some(now), gateAuthorisedBy := Some(why)));
      TransitionGoes(p, open, p.lifecycle[g + 1], now, told);
      Standing(p, Transitioned(p, open, p.lifecycle[g + 1], now, told).job, g + 1);
    }
  }

  /** A job at its gate always has a poll to come; the sixty-first, at the latest, lets it through. */
  lemma GateNeverBlocks(p: Profile, hs: seq<Happening>)
    requires WellFormed(p)
    ensures var t := Run(p, QUEUED, hs);
            && |t.answers| <= 61
            && (AtGate(p, t.job) ==>
                  && |t.answers| <= 60
                  && exists k: nat | k < |t.timers| && t.timers[k].Poll? ::
                       forall now, decided, told | now >= t.timers[k].due ::
                         LeavesOrCounts(p, t, k, now, decided, told))
  {
    hide Run, StepTimer, IndexOf, Step, LeavesOrCounts;
    EveryRunKeepsInv(p, hs);
    var t := Run(p, QUEUED, hs);
    if AtGate(p, t.job) {
      var k: nat :| LonePoll(t.timers, k) && PollInv(t, t.timers[k]);
      GateIsNotCommitted(p, t.job);
      forall now, decided, told | now >= t.timers[k].due ensures LeavesOrCounts(p, t, k, now, decided, told) {
        PollLeavesOrCounts(p, t, k, now, decided, told);
      }
    }
  }

  lemma GateIsNotCommitted(p: Profile, job: Job)
    requires WellFormed(p) && AtGate(p, job)
    ensures !IsLoadCommitted(p, job)
  {
    GateIs(p);
    OffTheLifecycle(p);
  }

  /** Authorised by a decision exactly when some poll saw one; by timeout only once the deadline had passed. */
  lemma DecisionIffAPollSawOne(p: Profile, hs: seq<Happening>)
    requires WellFormed(p)
    ensures var t := Run(p, QUEUED, hs);
            && (t.job.gateAuthorisedBy == Some(DECISION) <==> true in t.answers)
            && (t.job.gateAuthorisedBy == Some(TIMEOUT) ==>
                  && true !in t.answers
                  && t.job.gateAuthorisedAt.Some?
                  && t.job.gateAuthorisedAt.value >= t.enteredGateAt + 30_000)
  {
    hide Run, StepTimer, IndexOf;
    EveryRunKeepsInv(p, hs);
    var t := Run(p, QUEUED, hs);
    if t.job.gateAuthorisedBy.Some? {
      var n := |t.answers| - 1;
      assert t.answers == t.answers[..n] + [t.answers[n]];
    } else {
      assert Unanswered(t.answers);
    }
  }
}
