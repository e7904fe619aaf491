/** How long an undisturbed job takes, and what its workflow has heard of it. */
module FacilityTime {
  import opened Shared
  import opened Facility
  import opened FacilitySafety

  // ── Exact timers ────────────────────────────────────────────────────

  /** What the timed states before the one at `n` take. */
  ghost function Spent(p: Profile, n: nat): nat
    requires WellFormed(p) && n < |p.lifecycle|
  {
    if n == 0 then 0
    else Spent(p, n - 1) + if p.gate == Some(p.lifecycle[n - 1]) then 0 else p.durations[p.lifecycle[n - 1]]
  }

  /** With exact timers the polls are half a second apart, the first on arrival. */
  function TimeAtGate(answers: seq<bool>): nat { if answers == [] then 0 else 500 * (|answers| - 1) }

  /** Nothing but its own timers has moved the job since `start`, and none was late. */
  ghost predicate OnTime(p: Profile, t: Track, start: int)
    requires WellFormed(p)
  {
    var i := IndexOf(p.lifecycle, t.job.state);
    && i >= 0
    && (if i == |p.lifecycle| - 1 then
          t.timers == [] && t.job.completedAt == Some(start + Spent(p, i) + TimeAtGate(t.answers))
        else if AtGate(p, t.job) then
          && t.enteredGateAt == start + Spent(p, i)
          && t.timers == [Poll(t.enteredGateAt + GATE_TIMEOUT_MS, t.enteredGateAt + GATE_POLL_MS * |t.answers|)]
        else
          t.timers == [Advance(p.lifecycle[i], p.lifecycle[i + 1], start + Spent(p, i + 1) + TimeAtGate(t.answers))])
  }

  /** The timers and calls that come of entering each kind of state. */
  lemma TransitionSets(p: Profile, t: Track, i: nat, now: int, told: bool)
    requires WellFormed(p) && i < |p.lifecycle|
    ensures var s, t' := p.lifecycle[i], Transitioned(p, t, p.lifecycle[i], now, told);
            && t'.job == t.job.(state := s, completedAt := if s == Finished(p) then Some(now) else t.job.completedAt)
            && t'.answers == t.answers
            && (if p.gate == Some(s) then
                  && i < |p.lifecycle| - 1
                  && t'.timers == t.timers + [Poll(now + GATE_TIMEOUT_MS, now)] && t'.enteredGateAt == now
                  && t'.calls == t.calls
                else if i == |p.lifecycle| - 1 then
                  t'.timers == t.timers && t'.calls == Tell(t, Workflow.OperationCompleted, told).calls
                else
                  && s in p.durations
                  && t'.timers == t.timers + [Advance(s, p.lifecycle[i + 1], now + p.durations[s])]
                  && t'.calls == t.calls)
  {
    hide IndexOf, WellFormed;
    IndexIs(p, i);
    IndexIs(p, |p.lifecycle| - 1);
    OffTheLifecycle(p);
    if p.gate.Some? { GateIs(p); }
    if i < |p.lifecycle| - 1 { TimedUnlessGate(p, i); }
  }

  lemma TimedUnlessGate(p: Profile, i: nat)
    requires WellFormed(p) && i < |p.lifecycle| - 1
    ensures p.gate == Some(p.lifecycle[i]) || p.lifecycle[i] in p.durations
  {
  }

  lemma EntersOnTime(p: Profile, t: Track, i: nat, start: int, now: int, told: bool)
    requires WellFormed(p) && i < |p.lifecycle| && t.timers == []
    requires now == start + Spent(p, i) + TimeAtGate(t.answers)
    requires p.gate == Some(p.lifecycle[i]) ==> t.answers == []
    ensures OnTime(p, Transitioned(p, t, p.lifecycle[i], now, told), start)
  {
    hide Transitioned, WellFormed, IndexOf, TimeAtGate, Spent;
    IndexIs(p, i);
    TransitionSets(p, t, i, now, told);
    if p.gate == Some(p.lifecycle[i]) {
      assert TimeAtGate([]) == 0 by { NoTimeAtGate(); }
    } else if i < |p.lifecycle| - 1 {
      SpentOneMore(p, i + 1);
    }
  }

  lemma NoTimeAtGate()
    ensures TimeAtGate([]) == 0
  {
  }

  lemma SpentOneMore(p: Profile, n: nat)
    requires WellFormed(p) && 0 < n < |p.lifecycle|
    ensures Spent(p, n) == Spent(p, n - 1) + if p.gate == Some(p.lifecycle[n - 1]) then 0
                                             else p.durations[p.lifecycle[n - 1]]
  {
  }

  /** The one pending timer fires the moment it is due. */
  function FireOnTime(p: Profile, t: Track, decided: bool, told: bool): Track
    requires |p.lifecycle| > 0
  {
    if t.timers == [] then t else Step(p, t, Fired(0, t.timers[0].due, decided, told)).0
  }

  /** States and polls still to come, at most. */
  function StillToCome(p: Profile, t: Track): int { |p.lifecycle| - Place(p, t.job) + 61 - |t.answers| }

  lemma StepsOnTime(p: Profile, t: Track, start: int, decided: bool, told: bool)
    requires Inv(p, t) && OnTime(p, t, start) && !Over(p, t.job) && !AtGate(p, t.job)
    ensures var t' := FireOnTime(p, t, decided, told);
            && OnTime(p, t', start) && StillToCome(p, t') < StillToCome(p, t)
            && Place(p, t'.job) == Place(p, t.job) + 1
  {
    hide Transitioned, IndexOf, WellFormed, Spent, StepTimer, IsLoadCommitted;
    var i := IndexOf(p.lifecycle, t.job.state);
    Standing(p, t.job, i);
    var fired := t.(timers := []);
    assert Without(t.timers, 0) == [];
    var now := t.timers[0].due;
    if p.gate == Some(p.lifecycle[i + 1]) { Standing(p, t.job.(state := p.lifecycle[i + 1]), i + 1); }
    EntersOnTime(p, fired, i + 1, start, now, told);
    TransitionGoes(p, fired, p.lifecycle[i + 1], now, told);
    TransitionAsks(p, fired, p.lifecycle[i + 1], now, told);
    PlaceIs(p, Transitioned(p, fired, p.lifecycle[i + 1], now, told).job, i + 1);
    PlaceIs(p, t.job, i);
  }

  lemma TransitionAsks(p: Profile, t: Track, state: string, now: int, told: bool)
    requires |p.lifecycle| > 0
    ensures Transitioned(p, t, state, now, told).answers == t.answers
  {
  }

  lemma PollsOnTime(p: Profile, t: Track, start: int, decided: bool, told: bool)
    requires Inv(p, t) && OnTime(p, t, start) && AtGate(p, t.job)
    ensures var t' := FireOnTime(p, t, decided, told);
            && OnTime(p, t', start) && StillToCome(p, t') < StillToCome(p, t)
            && (decided ==> Place(p, t'.job) == Place(p, t.job) + 1)
  {
    hide Transitioned, IndexOf, WellFormed, Spent, StepTimer, IsLoadCommitted;
    var g := IndexOf(p.lifecycle, t.job.state);
    GateHasNext(p, t);
    Standing(p, t.job, g);
    assert Without(t.timers, 0) == [];
    var now := t.timers[0].due;
    PlaceIs(p, t.job, g);
    if decided || now >= t.timers[0].deadline {
      var why := if decided then DECISION else TIMEOUT;
      var open := t.(timers := [], answers := t.answers + [decided],
                     job := t.job.(gateAuthorisedAt := Some(now), gateAuthorisedBy := Some(why)));
      SpentOneMore(p, g + 1);
      if p.gate == Some(p.lifecycle[g + 1]) { IndexIs(p, g + 1); }
      EntersOnTime(p, open, g + 1, start, now, told);
      TransitionGoes(p, open, p.lifecycle[g + 1], now, told);
      TransitionAsks(p, open, p.lifecycle[g + 1], now, told);
      PlaceIs(p, Transitioned(p, open, p.lifecycle[g + 1], now, told).job, g + 1);
    }
  }

  /** Each reply is what the log answers if asked, and whether a call would get through. */
  function RunOnTime(p: Profile, t: Track, replies: seq<(bool, bool)>): Track
    requires |p.lifecycle| > 0
    decreases |replies|
  {
    if replies == [] then t else RunOnTime(p, FireOnTime(p, t, replies[0].0, replies[0].1), replies[1..])
  }

  lemma {:induction false} RunsOnTime(p: Profile, t: Track, start: int, replies: seq<(bool, bool)>)
    requires Inv(p, t) && OnTime(p, t, start)
    ensures var end := RunOnTime(p, t, replies);
            && Inv(p, end) && OnTime(p, end, start)
            && (Over(p, t.job) || |replies| >= StillToCome(p, t) ==> end.job.state == Finished(p))
    decreases |replies|
  {
    hide Step, Place, IsLoadCommitted, IndexOf;
    StillSome(p, t);
    if replies != [] {
      var t' := FireOnTime(p, t, replies[0].0, replies[0].1);
      OverIsStill(p, t, start);
      if Over(p, t.job) {
        RunsOnTime(p, t, start, replies[1..]);
      } else {
        if AtGate(p, t.job) { PollsOnTime(p, t, start, replies[0].0, replies[0].1); }
        else { StepsOnTime(p, t, start, replies[0].0, replies[0].1); }
        StepKeepsInv(p, t, Fired(0, t.timers[0].due, replies[0].0, replies[0].1));
        RunsOnTime(p, t', start, replies[1..]);
      }
    }
  }

  lemma StillSome(p: Profile, t: Track)
    requires Inv(p, t)
    ensures StillToCome(p, t) > 0 || Over(p, t.job)
  {
    hide StepTimer;
    OffTheLifecycle(p);
    IndexIs(p, |p.lifecycle| - 1);
  }

  lemma OverIsStill(p: Profile, t: Track, start: int)
    requires Inv(p, t) && OnTime(p, t, start)
    ensures Over(p, t.job) <==> t.timers == []
    ensures Over(p, t.job) ==> t.job.state == Finished(p)
  {
    Standing(p, t.job, IndexOf(p.lifecycle, t.job.state));
  }

  /**
   * Dispatched and left alone, a job finishes after exactly its timed states and its
   * polls of the gate: half a second for each that found nothing, thirty seconds at most.
   */
  lemma UndisturbedJobTakesExactly(p: Profile, start: int, operationId: string, told: bool, replies: seq<(bool, bool)>)
    requires WellFormed(p)
    requires |replies| >= |p.lifecycle| + 60
    ensures var end := RunOnTime(p, OnDispatch(p, QUEUED, start, operationId, true, told).0, replies);
            && end.job.state == Finished(p)
            && end.job.completedAt == Some(start + Spent(p, |p.lifecycle| - 1) + TimeAtGate(end.answers))
            && TimeAtGate(end.answers) <= 30_000
            && Unanswered(if end.answers == [] then [] else end.answers[..|end.answers| - 1])
  {
    hide Step, RunOnTime, Place, IndexOf, Inv, OnTime, OnDispatch, Spent;
    var t := OnDispatch(p, QUEUED, start, operationId, true, told).0;
    DispatchedOnTime(p, start, operationId, told);
    RunsOnTime(p, t, start, replies);
    FinishedOnTime(p, RunOnTime(p, t, replies), start);
  }

  lemma DispatchedOnTime(p: Profile, start: int, operationId: string, told: bool)
    requires WellFormed(p)
    ensures var t := OnDispatch(p, QUEUED, start, operationId, true, told).0;
            Inv(p, t) && OnTime(p, t, start) && StillToCome(p, t) == |p.lifecycle| + 60
  {
    hide IndexOf, Transitioned, StepTimer, OnTime, Inv;
    EveryRunKeepsInv(p, []);
    DispatchKeeps(p, QUEUED, start, operationId, true, told);
    var issued := QUEUED.(job := QUEUED.job.(operationId := Some(operationId), dispatchedAt := Some(start)));
    EntersOnTime(p, issued, 0, start, start, told);
    TransitionSets(p, issued, 0, start, told);
    PlaceIs(p, Transitioned(p, issued, p.lifecycle[0], start, told).job, 0);
  }

  lemma FinishedOnTime(p: Profile, t: Track, start: int)
    requires Inv(p, t) && OnTime(p, t, start) && t.job.state == Finished(p)
    ensures t.job.completedAt == Some(start + Spent(p, |p.lifecycle| - 1) + TimeAtGate(t.answers))
    ensures TimeAtGate(t.answers) <= 30_000
    ensures Unanswered(if t.answers == [] then [] else t.answers[..|t.answers| - 1])
  {
    hide IndexOf, WellFormed, StepTimer, Spent;
    Standing(p, t.job, |p.lifecycle| - 1);
  }

  // ── A timer left over from before a hold ────────────────────────────

  /**
   * When a timer that was set in the state a job halted from comes due, at any later point
   * of the run: it moves the job on if and only if the job is not held then and is where it
   * halted, that is, has been resumed, has not been held again and has not left that state.
   */
  lemma OldTimerMovesIff(p: Profile, hs: seq<Happening>, more: seq<Happening>,
                         k: nat, now: int, decided: bool, told: bool)
    requires WellFormed(p)
    requires Run(p, QUEUED, hs).job.heldFrom.Some?
    requires var later := Run(p, QUEUED, hs + more);
             && k < |later.timers| && later.timers[k].Advance? && now >= later.timers[k].due
             && later.timers[k].from == Run(p, QUEUED, hs).job.heldFrom.value
    ensures var halted, later := Run(p, QUEUED, hs), Run(p, QUEUED, hs + more);
            var after := Step(p, later, Fired(k, now, decided, told)).0;
            && (after.job != later.job <==> later.job.state != JOB_HELD && Place(p, later.job) == Place(p, halted.job))
            && (after.job != later.job ==> after.job.state == later.timers[k].next)
  {
    hide Run, IndexOf, IsLoadCommitted, WellFormed;
    EveryRunKeepsInv(p, hs);
    EveryRunKeepsInv(p, hs + more);
    OnlyForward(p, hs, more);
    OldTimerMoves(p, Run(p, QUEUED, hs), Run(p, QUEUED, hs + more), k, now, told);
  }

  lemma OldTimerMoves(p: Profile, halted: Track, later: Track, k: nat, now: int, told: bool)
    requires Inv(p, halted) && halted.job.heldFrom.Some? && Inv(p, later)
    requires IsLoadCommitted(p, halted.job) ==> IsLoadCommitted(p, later.job)
    requires k < |later.timers| && later.timers[k].Advance? && later.timers[k].from == halted.job.heldFrom.value
    ensures var dropped, timer := later.(timers := Without(later.timers, k)), later.timers[k];
            var after := OnTimer(p, dropped, timer, now, false, told);
            && (after.job != later.job <==> later.job.state != JOB_HELD && Place(p, later.job) == Place(p, halted.job))
            && (after.job != later.job ==> after.job.state == timer.next)
  {
    hide Transitioned, WellFormed;
    OffTheLifecycle(p);
    var timer := later.timers[k];
    assert StepTimer(p, timer);
    IndexIs(p, IndexOf(p.lifecycle, timer.from) + 1);
    TransitionGoes(p, later.(timers := Without(later.timers, k)), timer.next, now, told);
  }

  /** One hold and exact timers: what happens to a job halted at `heldAt`, in order of time. */
  function HaltAndResume(t: Track, heldAt: int, resumedAt: int): seq<Happening>
    requires |t.timers| > 0
  {
    var halt, resume := Suspended(heldAt, "", true), Resumed(resumedAt, true);
    var fire := Fired(0, t.timers[0].due, false, true);
    if t.timers[0].due < resumedAt then [halt, fire, resume] else [halt, resume, fire]
  }

  lemma RunThree(p: Profile, t: Track, a: Happening, b: Happening, c: Happening)
    requires |p.lifecycle| > 0
    ensures Run(p, t, [a, b, c]) == Step(p, Step(p, Step(p, t, a).0, b).0, c).0
  {
    hide Step;
    assert [a, b, c][..2] == [a, b] && [a, b][..1] == [a] && [a][..0] == [];
    assert Run(p, t, [a]) == Step(p, Run(p, t, []), a).0;
    assert Run(p, t, [a, b]) == Step(p, Run(p, t, [a]), b).0;
  }

  /** Then the old timer moves the job if and only if it comes due no earlier than the job resumes. */
  lemma OldTimerMovesIffDueAfter(p: Profile, t: Track, start: int, heldAt: int, resumedAt: int)
    requires Inv(p, t) && OnTime(p, t, start) && IsLoadCommitted(p, t.job) && !Over(p, t.job)
    ensures |t.timers| == 1 && t.timers[0].Advance? && t.timers[0].from == t.job.state
    ensures var timer, end := t.timers[0], Run(p, t, HaltAndResume(t, heldAt, resumedAt));
            && end.job.state == (if timer.due >= resumedAt then timer.next else timer.from)
            && timer.next != timer.from
  {
    hide IndexOf, WellFormed, Transitioned, StepTimer, Run, Spent;
    var i := IndexOf(p.lifecycle, t.job.state);
    Standing(p, t.job, i);
    IndexIs(p, i + 1);
    var timer := t.timers[0];
    var halt, resume := Suspended(heldAt, "", true), Resumed(resumedAt, true);
    var fire := Fired(0, timer.due, false, true);
    HaltThenResume(p, t, i, heldAt, resumedAt);
    if timer.due < resumedAt { RunThree(p, t, halt, fire, resume); } else { RunThree(p, t, halt, resume, fire); }
  }

  /** The track after each of the two orders, one firing included. */
  lemma HaltThenResume(p: Profile, t: Track, i: nat, heldAt: int, resumedAt: int)
    requires Inv(p, t) && IsLoadCommitted(p, t.job) && !Over(p, t.job)
    requires i + 1 < |p.lifecycle| && t.job.state == p.lifecycle[i]
    requires |t.timers| > 0 && t.timers[0].Advance? && t.timers[0].from == t.job.state
    ensures var held := Step(p, t, Suspended(heldAt, "", true)).0;
            var resumed := Step(p, held, Resumed(resumedAt, true)).0;
            var fire := Fired(0, t.timers[0].due, false, true);
            && Step(p, resumed, fire).0.job.state == t.timers[0].next
            && Step(p, Step(p, held, fire).0, Resumed(resumedAt, true)).0.job.state == t.job.state
  {
    hide IndexOf, WellFormed, Transitioned, StepTimer;
    OffTheLifecycle(p);
    Standing(p, t.job, i);
    var holding := t.(job := t.job.(heldFrom := Some(t.job.state), heldReason := Some("")), holdTold := true);
    HoldingSets(p, holding, heldAt);
    var held := Step(p, t, Suspended(heldAt, "", true)).0;
    var heard := Tell(held, Workflow.OperationResumed, true).(job := held.job.(heldFrom := None, heldReason := None));
    TransitionSets(p, heard, i, resumedAt, true);
    var resumed := Step(p, held, Resumed(resumedAt, true)).0;
    TransitionGoes(p, resumed.(timers := Without(resumed.timers, 0)), t.timers[0].next, t.timers[0].due, true);
    var late := heard.(timers := Without(heard.timers, 0));
    TransitionGoes(p, late, t.job.state, resumedAt, true);
  }

  lemma HoldingSets(p: Profile, t: Track, now: int)
    requires WellFormed(p)
    ensures Transitioned(p, t, JOB_HELD, now, true) == t.(job := t.job.(state := JOB_HELD))
  {
    OffTheLifecycle(p);
  }

  /** Dispatched and left alone with a decision on the log, a job comes to each of its states on time. */
  lemma {:induction false} ReachesPlace(p: Profile, start: int, operationId: string, n: nat)
    returns (hs: seq<Happening>)
    requires WellFormed(p) && n < |p.lifecycle|
    ensures var t := Run(p, QUEUED, hs);
            Inv(p, t) && OnTime(p, t, start) && t.job.state == p.lifecycle[n]
  {
    hide Step, OnTime, Inv, IndexOf, WellFormed;
    if n == 0 {
      hs := [Dispatched(start, operationId, true, true)];
      DispatchedHere(p, start, operationId);
    } else {
      var before := ReachesPlace(p, start, operationId, n - 1);
      var t := Run(p, QUEUED, before);
      OneFiringOn(p, t, start, n);
      var fire := Fired(0, t.timers[0].due, true, true);
      hs := before + [fire];
      assert hs[..|before|] == before;
      StepKeepsInv(p, t, fire);
    }
  }

  lemma DispatchedHere(p: Profile, start: int, operationId: string)
    requires WellFormed(p)
    ensures var t := Run(p, QUEUED, [Dispatched(start, operationId, true, true)]);
            Inv(p, t) && OnTime(p, t, start) && t.job.state == p.lifecycle[0]
  {
    hide OnTime, Inv, IndexOf, Transitioned;
    DispatchedOnTime(p, start, operationId, true);
    var issued := QUEUED.(job := QUEUED.job.(operationId := Some(operationId), dispatchedAt := Some(start)));
    TransitionGoes(p, issued, p.lifecycle[0], start, true);
    assert [Dispatched(start, operationId, true, true)][..0] == [];
    assert Run(p, QUEUED, []) == QUEUED;
  }

  lemma OneFiringOn(p: Profile, t: Track, start: int, n: nat)
    requires Inv(p, t) && OnTime(p, t, start) && 0 < n < |p.lifecycle| && t.job.state == p.lifecycle[n - 1]
    ensures t.timers != []
    ensures var t' := Step(p, t, Fired(0, t.timers[0].due, true, true)).0;
            OnTime(p, t', start) && t'.job.state == p.lifecycle[n]
  {
    hide Step, IndexOf, WellFormed, StepTimer, Spent;
    Standing(p, t.job, n - 1);
    OverIsStill(p, t, start);
    PlaceIs(p, t.job, n - 1);
    if AtGate(p, t.job) { PollsOnTime(p, t, start, true, true); } else { StepsOnTime(p, t, start, true, true); }
    OnTimePlace(p, FireOnTime(p, t, true, true), start, n);
  }

  lemma OnTimePlace(p: Profile, t: Track, start: int, n: nat)
    requires WellFormed(p) && OnTime(p, t, start) && Place(p, t.job) == n + 1 && n < |p.lifecycle|
    ensures t.job.state == p.lifecycle[n]
  {
    OffTheLifecycle(p);
  }

  /**
   * So in every industry with a state between its gate and its end, a run halts as it enters
   * that state, resumes once the state's duration has gone by, and goes on the same instant:
   * all of the state's time was spent on hold.
   */
  lemma OldTimerOutlivesAHold(p: Profile, g: nat, start: int, operationId: string)
    returns (hs: seq<Happening>, at: int)
    requires WellFormed(p) && g + 2 < |p.lifecycle| && p.gate == Some(p.lifecycle[g])
    ensures p.lifecycle[g + 1] in p.durations
    ensures hs != [] && hs[|hs| - 1] == Suspended(at - p.durations[p.lifecycle[g + 1]], "", true)
    ensures var held := Run(p, QUEUED, hs);
            var resumed := Step(p, held, Resumed(at, true)).0;
            && held.job.state == JOB_HELD && held.job.heldFrom == Some(p.lifecycle[g + 1])
            && resumed.job.state == p.lifecycle[g + 1]
            && Step(p, resumed, Fired(0, at, false, true)).0.job.state == p.lifecycle[g + 2]
  {
    hide Step, IndexOf, WellFormed, Transitioned, StepTimer, Spent, Run;
    var before := ReachesPlace(p, start, operationId, g + 1);
    var t := Run(p, QUEUED, before);
    Standing(p, t.job, g + 1);
    IndexIs(p, g);
    IndexIs(p, g + 2);
    IndexIs(p, g + 1);
    TimedUnlessGate(p, g + 1);
    OverIsStill(p, t, start);
    at := t.timers[0].due;
    var heldAt := at - p.durations[p.lifecycle[g + 1]];
    var halt := Suspended(heldAt, "", true);
    HaltThenResume(p, t, g + 1, heldAt, at);
    HaltingSets(p, t, heldAt, at);
    hs := before + [halt];
    RunOneMore(p, QUEUED, before, halt);
  }

  lemma RunOneMore(p: Profile, t: Track, hs: seq<Happening>, h: Happening)
    requires |p.lifecycle| > 0
    ensures Run(p, t, hs + [h]) == Step(p, Run(p, t, hs), h).0
  {
    hide Step;
    assert (hs + [h])[..|hs|] == hs;
  }

  lemma HaltingSets(p: Profile, t: Track, heldAt: int, resumedAt: int)
    requires Inv(p, t) && IsLoadCommitted(p, t.job) && !Over(p, t.job) && t.job.state in p.lifecycle
    ensures var held := Step(p, t, Suspended(heldAt, "", true)).0;
            && held.job.state == JOB_HELD && held.job.heldFrom == Some(t.job.state)
            && Step(p, held, Resumed(resumedAt, true)).0.job.state == t.job.state
  {
    hide IndexOf, WellFormed, Transitioned, StepTimer;
    OffTheLifecycle(p);
    var holding := t.(job := t.job.(heldFrom := Some(t.job.state), heldReason := Some("")), holdTold := true);
    HoldingSets(p, holding, heldAt);
    var held := Step(p, t, Suspended(heldAt, "", true)).0;
    var heard := Tell(held, Workflow.OperationResumed, true).(job := held.job.(heldFrom := None, heldReason := None));
    TransitionGoes(p, heard, t.job.state, resumedAt, true);
  }

  // ── What the workflow has heard ─────────────────────────────────────

  function Heard(b: Workflow.Inbox, calls: seq<Call>): Workflow.Inbox {
    if calls == [] then b
    else
      var last := calls[|calls| - 1];
      var before := Heard(b, calls[..|calls| - 1]);
      if last.delivered then Workflow.Handle(before, last.signal) else before
  }

  lemma HeardTell(b: Workflow.Inbox, t: Track, signal: Workflow.Signal, delivered: bool)
    ensures var t' := Tell(t, signal, delivered);
            Heard(b, t'.calls) == if delivered && t.job.operationId.Some?
                                  then Workflow.Handle(Heard(b, t.calls), signal) else Heard(b, t.calls)
  {
    if t.job.operationId.Some? {
      assert (t.calls + [Call(signal, delivered)])[..|t.calls|] == t.calls;
    }
  }

  predicate Fresh(b: Workflow.Inbox) { !b.suspended && !b.completed }

  /** Suspended exactly while the job is held and the hold was told; completed once the completion got there. */
  ghost predicate HearsTheJob(p: Profile, t: Track, b: Workflow.Inbox)
    requires |p.lifecycle| > 0
  {
    Heard(b, t.calls) == b.(
      suspended := t.job.state == JOB_HELD && t.holdTold,
      completed := Over(p, t.job) && t.calls != [] && t.calls[|t.calls| - 1].delivered)
  }

  /** Moving along the lifecycle says nothing unless it is the end. */
  lemma HearsTransition(p: Profile, t: Track, state: string, now: int, told: bool, b: Workflow.Inbox)
    requires WellFormed(p) && t.job.operationId.Some? && Heard(b, t.calls) == b && Fresh(b)
    requires state in p.lifecycle || state == JOB_ABORTED
    ensures HearsTheJob(p, Transitioned(p, t, state, now, told), b)
  {
    hide IndexOf, Heard, Scheduled, WellFormed;
    OffTheLifecycle(p);
    HeardTell(b, t, Workflow.OperationCompleted, told);
    if state == JOB_ABORTED {
    } else {
      var i := IndexOf(p.lifecycle, state);
      Standing(p, t.job.(state := state), i);
      TransitionSets(p, t, i, now, told);
      hide Transitioned;
    }
  }

  lemma HearsFire(p: Profile, t: Track, k: nat, now: int, decided: bool, told: bool, b: Workflow.Inbox)
    requires Inv(p, t) && Fresh(b) && HearsTheJob(p, t, b) && k < |t.timers| && now >= t.timers[k].due
    ensures HearsTheJob(p, OnTimer(p, t.(timers := Without(t.timers, k)), t.timers[k], now, decided, told), b)
  {
    hide Heard, Transitioned, IndexOf, WellFormed;
    OffTheLifecycle(p);
    var dropped := t.(timers := Without(t.timers, k));
    match t.timers[k]
    case Advance(from, next, _) =>
      if t.job.state == from {
        Standing(p, t.job, IndexOf(p.lifecycle, from));
        HearsTransition(p, dropped, next, now, told, b);
      }
    case Poll(deadline, _) =>
      if AtGate(p, t.job) {
        GateHasNext(p, t);
        Standing(p, t.job, IndexOf(p.lifecycle, t.job.state));
        var next := p.lifecycle[IndexOf(p.lifecycle, t.job.state) + 1];
        var why := if decided then DECISION else TIMEOUT;
        var open := dropped.(answers := t.answers + [decided],
                             job := t.job.(gateAuthorisedAt := Some(now), gateAuthorisedBy := Some(why)));
        HearsTransition(p, open, next, now, told, b);
      }
  }

  lemma HearsHold(p: Profile, t: Track, now: int, reason: string, told: bool, b: Workflow.Inbox)
    requires Inv(p, t) && Fresh(b) && HearsTheJob(p, t, b)
    ensures HearsTheJob(p, OnSuspend(p, t, now, reason, told).0, b)
  {
    hide Heard, IndexOf, StepTimer;
    OffTheLifecycle(p);
    if t.job.state != JOB_HELD && IsJobInFlight(p, t.job) && IsLoadCommitted(p, t.job) {
      var holding := t.(job := t.job.(heldFrom := Some(t.job.state), heldReason := Some(reason)), holdTold := told);
      var held := Transitioned(p, holding, JOB_HELD, now, told);
      HeardTell(b, held, Workflow.OperationSuspended, told);
    }
  }

  lemma HearsResume(p: Profile, t: Track, now: int, told: bool, b: Workflow.Inbox)
    requires Inv(p, t) && Fresh(b) && HearsTheJob(p, t, b)
    ensures HearsTheJob(p, OnResume(p, t, now, told).0, b)
  {
    hide Heard, IndexOf, StepTimer, Transitioned;
    OffTheLifecycle(p);
    if t.job.state == JOB_HELD {
      HeardTell(b, t, Workflow.OperationResumed, told);
      var heard := Tell(t, Workflow.OperationResumed, told);
      if told {
        var restored := heard.(job := t.job.(heldFrom := None, heldReason := None));
        HearsTransition(p, restored, t.job.heldFrom.value, now, told, b);
      }
    }
  }

  lemma HearsAbort(p: Profile, t: Track, now: int, told: bool, b: Workflow.Inbox)
    requires Inv(p, t) && Fresh(b) && HearsTheJob(p, t, b)
    ensures HearsTheJob(p, OnAbort(p, t, now, told).0, b)
  {
    hide Heard, IndexOf, StepTimer, Transitioned;
    OffTheLifecycle(p);
    if IsJobInFlight(p, t.job) {
      if IsLoadCommitted(p, t.job) { HearsHold(p, t, now, "ABORTED_MID_OPERATION", told, b); }
      else { HearsTransition(p, t, JOB_ABORTED, now, told, b); }
    }
  }

  lemma HearsStep(p: Profile, t: Track, h: Happening, b: Workflow.Inbox)
    requires Inv(p, t) && Fresh(b) && HearsTheJob(p, t, b)
    ensures HearsTheJob(p, Step(p, t, h).0, b)
  {
    hide Heard, IndexOf, StepTimer, Transitioned, HearsTheJob, OnAbort, OnSuspend, OnResume, OnTimer;
    match h
    case Dispatched(now, operationId, accepted, told) =>
      if t.job.state == JOB_QUEUED && accepted {
        HeardNothing(b);
        var issued := t.(job := t.job.(operationId := Some(operationId), dispatchedAt := Some(now)));
        HearsTransition(p, issued, p.lifecycle[0], now, told, b);
      }
    case Aborted(now, told) => HearsAbort(p, t, now, told, b);
    case Suspended(now, reason, told) => HearsHold(p, t, now, reason, told, b);
    case Resumed(now, told) => HearsResume(p, t, now, told, b);
    case Fired(k, now, decided, told) =>
      if k < |t.timers| && now >= t.timers[k].due { HearsFire(p, t, k, now, decided, told, b); }
  }

  lemma HeardNothing(b: Workflow.Inbox)
    ensures Heard(b, []) == b
  {
  }

  /** In every run, whichever calls fail: a job that moves is never thought suspended, nor one under way complete. */
  lemma {:induction false} EveryRunIsHeard(p: Profile, hs: seq<Happening>, b: Workflow.Inbox)
    requires WellFormed(p) && Fresh(b)
    ensures HearsTheJob(p, Run(p, QUEUED, hs), b)
  {
    hide Heard, IndexOf, StepTimer, Step;
    if hs == [] {
      HeardNothing(b);
      OffTheLifecycle(p);
    } else {
      EveryRunKeepsInv(p, hs[..|hs| - 1]);
      EveryRunIsHeard(p, hs[..|hs| - 1], b);
      HearsStep(p, Run(p, QUEUED, hs[..|hs| - 1]), hs[|hs| - 1], b);
    }
  }
}
