/** What each command to a job does, and exactly when it is refused. */
module FacilityCommands {
  import opened Shared
  import opened Facility
  import opened FacilitySafety

  /** Nothing about the job has changed. */
  predicate Unchanged(t: Track, t': Track) { t' == t }

  /** Cancelled: over, stamped, and its workflow told to give back. */
  predicate Cancelled(t: Track, t': Track, now: int, told: bool) {
    t' == t.(job := t.job.(state := JOB_ABORTED, completedAt := Some(now)),
             calls := t.calls + [Call(Workflow.OperationCompleted, told)])
  }

  /** Halted where it was, with the reason, and its workflow told to hold on. */
  predicate Halted(t: Track, t': Track, reason: string, told: bool) {
    t' == t.(job := t.job.(state := JOB_HELD, heldFrom := Some(t.job.state), heldReason := Some(reason)),
             calls := t.calls + [Call(Workflow.OperationSuspended, told)], holdTold := told)
  }

  lemma HaltingIs(p: Profile, t: Track, now: int, told: bool)
    requires WellFormed(p)
    ensures Transitioned(p, t, JOB_HELD, now, told) == t.(job := t.job.(state := JOB_HELD))
  {
    OffTheLifecycle(p);
  }

  lemma CancellingIs(p: Profile, t: Track, now: int, told: bool)
    requires WellFormed(p) && t.job.operationId.Some?
    ensures Cancelled(t, Transitioned(p, t, JOB_ABORTED, now, told), now, told)
  {
    OffTheLifecycle(p);
  }

  /** A job that is under way has an operation. */
  lemma UnderWayHasOperation(p: Profile, t: Track)
    requires Inv(p, t) && IsJobInFlight(p, t.job)
    ensures t.job.operationId.Some?
  {
  }

  /** To suspend: halts a committed job under way, leaves a held one alone, and refuses any other. */
  lemma SuspendDoes(p: Profile, t: Track, now: int, reason: string, told: bool)
    requires Inv(p, t)
    ensures var (t', reply) := Step(p, t, Suspended(now, reason, told));
            var halts := IsJobInFlight(p, t.job) && IsLoadCommitted(p, t.job) && t.job.state != JOB_HELD;
            && (if halts then Halted(t, t', reason, told) else Unchanged(t, t'))
            && reply == (if halts then (if told then Fine else Unreached)
                         else if t.job.state == JOB_HELD then Fine else Conflict)
  {
    hide Transitioned, IndexOf, StepTimer, IsLoadCommitted;
    if t.job.state != JOB_HELD && IsJobInFlight(p, t.job) && IsLoadCommitted(p, t.job) {
      UnderWayHasOperation(p, t);
      var holding := t.(job := t.job.(heldFrom := Some(t.job.state), heldReason := Some(reason)), holdTold := told);
      HaltingIs(p, holding, now, told);
    }
  }

  lemma HeldIsUnderWay(p: Profile, t: Track)
    requires Inv(p, t) && t.job.state == JOB_HELD
    ensures IsJobInFlight(p, t.job) && IsLoadCommitted(p, t.job)
  {
    OffTheLifecycle(p);
  }

  /**
   * To abort, by what the job is doing. Under way with nothing committed: cancelled, at once
   * and with its workflow told. Committed and moving: halted instead. Held already: left as it
   * is. Not under way: refused.
   */
  lemma AbortDoes(p: Profile, t: Track, now: int, told: bool)
    requires Inv(p, t)
    ensures var (t', reply) := Step(p, t, Aborted(now, told));
            var inFlight, committed := IsJobInFlight(p, t.job), IsLoadCommitted(p, t.job);
            && (Cancelled(t, t', now, told) <==> inFlight && !committed)
            && (Halted(t, t', "ABORTED_MID_OPERATION", told) <==> inFlight && committed && t.job.state != JOB_HELD)
            && (Unchanged(t, t') <==> !inFlight || t.job.state == JOB_HELD)
            && (reply == Conflict <==> !inFlight)
            && (reply == Unreached <==> inFlight && committed && t.job.state != JOB_HELD && !told)
  {
    hide Transitioned, IndexOf, StepTimer, IsLoadCommitted, OnSuspend;
    if t.job.state == JOB_HELD { HeldIsUnderWay(p, t); }
    SuspendDoes(p, t, now, "ABORTED_MID_OPERATION", told);
    if IsJobInFlight(p, t.job) {
      UnderWayHasOperation(p, t);
      CancellingIs(p, t, now, told);
    }
  }

  /** Put back where it halted, with a timer of its own, once its workflow has been told. */
  predicate PutBack(p: Profile, t: Track, t': Track, now: int) {
    && t.job.heldFrom.Some?
    && t'.job == t.job.(state := t.job.heldFrom.value, heldFrom := None, heldReason := None)
    && t'.calls == t.calls + [Call(Workflow.OperationResumed, true)]
    && t'.timers == t.timers + Scheduled(p, t.job.heldFrom.value, now)
  }

  lemma PuttingBackIs(p: Profile, t: Track, i: nat, now: int, told: bool)
    requires WellFormed(p) && i < |p.lifecycle| - 1 && p.gate != Some(p.lifecycle[i])
    ensures Transitioned(p, t, p.lifecycle[i], now, told)
            == t.(job := t.job.(state := p.lifecycle[i]), timers := t.timers + Scheduled(p, p.lifecycle[i], now))
  {
    IndexIs(p, i);
    IndexIs(p, |p.lifecycle| - 1);
    OffTheLifecycle(p);
  }

  /** To resume: puts a held job back if its workflow could be told, leaves it held if not, and refuses any other. */
  lemma ResumeDoes(p: Profile, t: Track, now: int, told: bool)
    requires Inv(p, t)
    ensures var (t', reply) := Step(p, t, Resumed(now, told));
            && (PutBack(p, t, t', now) <==> t.job.state == JOB_HELD && told)
            && (t.job.state == JOB_HELD && !told ==> t'.job == t.job && t'.timers == t.timers)
            && (t.job.state != JOB_HELD ==> Unchanged(t, t'))
            && reply == (if t.job.state != JOB_HELD then Conflict else if told then Fine else Unreached)
  {
    hide Transitioned, StepTimer, WellFormed, Scheduled;
    if t.job.state == JOB_HELD {
      HeldPlaceIs(p, t);
      var heard := Tell(t, Workflow.OperationResumed, told).(job := t.job.(heldFrom := None, heldReason := None));
      PuttingBackIs(p, heard, IndexOf(p.lifecycle, t.job.heldFrom.value), now, told);
    }
  }

  lemma HeldPlaceIs(p: Profile, t: Track)
    requires Inv(p, t) && t.job.state == JOB_HELD
    ensures t.job.heldFrom.Some? && t.job.operationId.Some?
    ensures var i := IndexOf(p.lifecycle, t.job.heldFrom.value);
            0 <= i < |p.lifecycle| - 1 && p.gate != Some(p.lifecycle[i])
  {
    OffTheLifecycle(p);
    IndexIs(p, |p.lifecycle| - 1);
  }

  /** To dispatch: starts a queued job whose event was accepted, changes nothing otherwise, and refuses any other. */
  lemma DispatchDoes(p: Profile, t: Track, now: int, operationId: string, accepted: bool, told: bool)
    requires Inv(p, t)
    ensures var (t', reply) := Step(p, t, Dispatched(now, operationId, accepted, told));
            && (t'.job.state == p.lifecycle[0] && t'.job.operationId == Some(operationId)
                && t'.job.dispatchedAt == Some(now) && Place(p, t'.job) == 1
                <== t.job.state == JOB_QUEUED && accepted)
            && (t.job.state != JOB_QUEUED || !accepted ==> Unchanged(t, t'))
            && reply == (if t.job.state != JOB_QUEUED then Conflict else if accepted then Fine else Unreached)
  {
    hide Transitioned, StepTimer, IndexOf;
    if t.job.state == JOB_QUEUED && accepted {
      var issued := t.(job := t.job.(operationId := Some(operationId), dispatchedAt := Some(now)));
      TransitionGoes(p, issued, p.lifecycle[0], now, told);
      PlaceIs(p, Transitioned(p, issued, p.lifecycle[0], now, told).job, 0);
    }
  }

  /** Every one of these holds of every job of every run. */
  lemma CommandsDo(p: Profile, hs: seq<Happening>, now: int, reason: string, told: bool)
    requires WellFormed(p)
    ensures var t := Run(p, QUEUED, hs);
            var inFlight, committed := IsJobInFlight(p, t.job), IsLoadCommitted(p, t.job);
            && (Cancelled(t, Step(p, t, Aborted(now, told)).0, now, told) <==> inFlight && !committed)
            && (Halted(t, Step(p, t, Suspended(now, reason, told)).0, reason, told)
                <==> inFlight && committed && t.job.state != JOB_HELD)
            && (PutBack(p, t, Step(p, t, Resumed(now, told)).0, now) <==> t.job.state == JOB_HELD && told)
  {
    hide Step, Run, Inv, IsJobInFlight, IsLoadCommitted;
    EveryRunKeepsInv(p, hs);
    var t := Run(p, QUEUED, hs);
    AbortDoes(p, t, now, told);
    SuspendDoes(p, t, now, reason, told);
    ResumeDoes(p, t, now, told);
    HaltedIsChanged(t, reason, told);
  }

  lemma HaltedIsChanged(t: Track, reason: string, told: bool)
    ensures !Halted(t, t, reason, told)
  {
    assert |t.calls + [Call(Workflow.OperationSuspended, told)]| == |t.calls| + 1;
  }
}
