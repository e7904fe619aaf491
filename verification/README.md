# FlowGuard

FlowGuard protects a critical operation (a crane lift, a drone flight) with premium mobile connectivity for
as long as it lasts, and gives that connectivity back afterwards. This project models the parts that hold and
return it, and proves what they promise in every run: for any signals in any order, any activity failing at any
attempt, and any number of operations sharing one network.

## What is modelled

| file | of the system |
|---|---|
| `Shared.dfy`, `Policy.dfy` | the wire vocabulary; `decide()`, its configuration and its two callers |
| `Network.dfy`, `Accounts.dfy` | the mock provider: sessions, attachments, ids printed from a counter; what one operation accounts for there |
| `Activities.dfy` | one attempt at each activity that changes the network, and which provider calls raise in it |
| `Workflow.dfy` | the critical-operation workflow as a step machine |
| `WorkflowSafety.dfy`, `WorkflowTime.dfy`, `Trail.dfy` | every run of one operation: invariants, escalate-only, termination, the two time budgets, the seconds asked for, the grammar of its trail |
| `Decisions.dfy`, `Responses.dfy`, `TrailTruth.dfy` | what every run is granted and why; what each request, halt, reading, time-out and attempt comes to; that the trail says what was so |
| `WorkflowLapse.dfy` | when a live session has been paid for, second by second, and when it runs out |
| `WorkflowRun.dfy` | the workflow as it executes: an object with signal handlers, an allocation changed in place, the loops; proved against the step machine |
| `Fleet.dfy` | any number of operations interleaved on one network |
| `ReadModel.dfy`, `DecisionLog.dfy`, `Dashboard.dfy` | the deduplicating log, its idempotency key, the projection onto the dashboard's operation; what is shown and announced, by the records delivered |
| `Facility.dfy`, `FacilitySafety.dfy`, `FacilityTime.dfy`, `FacilityCommands.dfy` | the facility's job machine with its timers, gate, hold, resume and abort, for a lifecycle of any length |
| `Assessment.dfy`, `EndToEnd.dfy` | the assessment graph over an arbitrary classifier and gatherer; a claim followed from evidence to slice |
| `Analysis.dfy`, `Figures.dfy` | the analysis page's replay and matrix, and its figures by the records they come from |
| `RateLimiter.dfy`, `LoginWindows.dfy`, `Text.dfy` | the login rate limiter, and its verdicts by the history of attempts; printed numbers and separators |

A step is what happens between two suspensions: a signal handler, an activity attempt with its outcome, a wait
that ended. Which provider calls raise, what the classifier and the gatherer answer, what the clock says and when
a timer fires are parameters of the step, so every theorem is about all of them. A step takes the network as it
finds it. `Fleet.EachOperationIsARun` and `WorkflowRun.AloneIsARun` carry what is proved of a run to the
operations of a fleet and to the workflow object.

Code that changes things step by step is a class or a method with loops here, and its contract equates the
new state with a function of the old one; the theorems are about those functions.

## What the proofs found

- **A live session can lapse** (`WorkflowLapse.GuaranteeCanLapse`, `WorkflowLapse.LapsesInsideAWait`). The comments
  around `agent/src/flowguard_agent/workflows/critical_operation.py:525-550` have the session extended while the
  operation runs. A signal that ends a wait early restarts the wait without counting it, so congestion readings that
  keep changing postpone every extension; and a wait that does time out is extended only after it has passed, so a
  session can run out inside it. The exact condition, for E the expected duration: no second of monitoring goes
  unpaid if and only if, at every step that ends a wait, the waits cut short so far, the full waits so far that
  passed without the device, and that wait itself come to no more than E + 60 seconds
  (`WorkflowLapse.NoSecondGoesUnpaidIff`). With no device lost, a full chunk C is paid for if and only if the cut
  waits total at most E + 60 - C, which from E = 30 on is 60 seconds (`WorkflowLapse.FullChunkIsPaidIff`).
- **The second case in the docstring at `agent/src/flowguard_agent/workflows/critical_operation.py:651-652` cannot occur.** An operation decided QOD
  asks for a slice under no reading at all (`WorkflowSafety.NoReadingUpgradesQod`); only a reported halt buys one.
- **Fewer orphans than attempts.** An operation that gave back leaves at most two sessions it never received, one
  for each failed allocate attempt before the one that succeeded.
- **A halt while the device is reported absent reads as over.** It records a decision of NONE mid-run, and the
  dashboard then shows nothing held while the session is out; some run does this
  (`ReadModel.HeldSessionCanGoUnshown`). A run is shown rightly at every point if and only if none of its wakes
  handled a halt while the device was reported unreachable (`ReadModel.RunIsShownRightlyIff`). The one other way to
  be wrong is a completion note landing after the release record (`ReadModel.ProjectionAgreesExactlyWhen`).
- **A held job's timer is not always abandoned.** `server/src/facility/facility-system.base.ts:170-172` has the
  pending timer find the state changed. It moves the job on if and only if, when it fires, the job is not held and
  is where it halted: resumed, not held again, not gone on (`FacilityTime.OldTimerMovesIff`). With exact timers and
  one hold that is when it is due no earlier than the resume (`FacilityTime.OldTimerMovesIffDueAfter`), and in every
  industry with a state between its gate and its end some run spends the whole of that state on hold
  (`FacilityTime.OldTimerOutlivesAHold`). Position and gate are still safe.
- **A hold is told once.** If the call to the workflow fails, suspending again returns early, so the workflow
  learns of that hold no more (`FacilityTime.EveryRunIsHeard` says exactly what it has heard).
- **The idempotency key needs no assumption on run ids**: it can be read back from its end. The store's unique
  constraint is on the key alone, across organizations, and a clash with another organization's record raises.
- **Two emits of one step in one millisecond collapse.** A trail is logged whole if and only if no step's records
  share a millisecond (`DecisionLog.LoggedWholeIff`).
- **The rate limiter's interval bound is 2·limit − 1**, not 2·limit, and it is attained.

## Model

| member | source | states |
|---|---|---|
| `Network.SessionIdsDiffer` | agent/src/flowguard_agent/network/mock_provider.py:180-201 | session ids printed from different counter values or for different devices differ, whatever the device ids contain |
| `Network.AttachmentIdsDiffer` | agent/src/flowguard_agent/network/mock_provider.py:233-242 | the same for attachment ids |
| `Network.NextIdsAreNew` | agent/src/flowguard_agent/network/mock_provider.py:180-242 | the next id of either kind has never been handed out |
| `Network.MockNetworkProvider.Bootstrap` | agent/src/flowguard_agent/network/mock_provider.py:109-113 | readies the slice and changes nothing else |
| `Network.MockNetworkProvider.CreateQodSession` | agent/src/flowguard_agent/network/mock_provider.py:180-201 | one more session, REQUESTED, under a new id; every other session and attachment as it was |
| `Network.MockNetworkProvider.GetQodSession` | agent/src/flowguard_agent/network/mock_provider.py:203-216 | the first poll makes a session available and starts its clock; an unknown id is an error and changes nothing |
| `Network.MockNetworkProvider.ExtendQodSession` | agent/src/flowguard_agent/network/mock_provider.py:218-226 | duration and expiry move together, of that session only |
| `Network.MockNetworkProvider.DeleteQodSession` | agent/src/flowguard_agent/network/mock_provider.py:228-231 | removes that session; idempotent |
| `Network.MockNetworkProvider.AttachDeviceToSlice` | agent/src/flowguard_agent/network/mock_provider.py:233-242 | one more attachment under a new id |
| `Network.MockNetworkProvider.DetachDeviceFromSlice` | agent/src/flowguard_agent/network/mock_provider.py:244-247 | removes that attachment; idempotent |
| `Network.SessionLifeIs` | agent/src/flowguard_agent/network/mock_provider.py:203-226 | however polls and extensions alternate, the clock starts at the first poll and is never restarted, and the expiry is the start plus every second granted |
| `Activities.NetworkActivities.AllocateAttempt` | agent/src/flowguard_agent/activities/network.py:74-133 | the attempt's result and the network after it, for every choice of raising calls: cleanup after a failed attach included |
| `Activities.NetworkActivities.EscalateToSlice` | agent/src/flowguard_agent/activities/network.py:136-152 | attaches when there is a slice; says so when there is none; no second session |
| `Activities.NetworkActivities.PollQodSession` | agent/src/flowguard_agent/activities/network.py:155-168 | the status after the poll, or a failure that changed nothing |
| `Activities.NetworkActivities.ExtendQodSession` | agent/src/flowguard_agent/activities/network.py:171-179 | extended, or failed and unchanged |
| `Activities.NetworkActivities.ReleaseAttempt` | agent/src/flowguard_agent/activities/network.py:182-219 | session and attachment go back independently; complete only if neither raised |
| `Responses.AllocationIsWhatWasAskedFor` | agent/src/flowguard_agent/activities/network.py:74-133 | an attempt allocates if and only if something was asked for and no call it makes raises; session and attachment are then on the network, the attachment if and only if a slice was asked for and ready; otherwise what is left behind |
| `Responses.EscalationIsWhatWasAskedFor` | agent/src/flowguard_agent/activities/network.py:136-152 | attached if and only if a slice is ready and the call does not raise; otherwise nothing changes |
| `Responses.ReleaseIsWhatWasAskedFor` | agent/src/flowguard_agent/activities/network.py:182-219 | each resource held goes back unless its own call raises, whatever becomes of the other, and nothing else goes |
| `Accounts.AllocateKeeps` | agent/src/flowguard_agent/activities/network.py:74-133 | after any attempt the network holds exactly what the operation's account says, and nothing anyone else held has moved |
| `Accounts.ReleaseKeeps` | agent/src/flowguard_agent/activities/network.py:182-219 | the same for a release attempt in which either deletion may fail |
| `Accounts.KeepsTwice` | agent/src/flowguard_agent/network/mock_provider.py:180-247 | two such effects in a row are one: used ids are never used again |
| `WorkflowRun.CriticalOperationWorkflow.Run` | agent/src/flowguard_agent/workflows/critical_operation.py:162-371 | whatever arrives, in whatever order, the object and the provider go through the states of the step machine, to the end or to the last arrival |
| `WorkflowRun.CriticalOperationWorkflow.ReadNetwork` | agent/src/flowguard_agent/workflows/critical_operation.py:172-203 | the guard clause and the congestion read, each with its failure |
| `WorkflowRun.CriticalOperationWorkflow.Judge` | agent/src/flowguard_agent/workflows/critical_operation.py:205-307 | the policy settings, the verdict or its fail-open stand-in, the decision and its records; what is decided is `Decisions.JudgementIs`, over runs `Decisions.GrantedExactlyWhenDeserved` |
| `WorkflowRun.CriticalOperationWorkflow.AllocateWithRetry` | agent/src/flowguard_agent/workflows/critical_operation.py:309-340 | at most three attempts; what succeeds is recorded with the congestion baseline of that moment |
| `WorkflowRun.CriticalOperationWorkflow.TryAllocate` | agent/src/flowguard_agent/workflows/critical_operation.py:309-340 | one attempt: settled with an allocation, settled with a failure, or one more to come, and the orphans it left |
| `WorkflowRun.CriticalOperationWorkflow.ConfirmQosAvailable` | agent/src/flowguard_agent/workflows/critical_operation.py:375-412 | waits for a settled status, else polls; reports what it then knows |
| `WorkflowRun.CriticalOperationWorkflow.PollForQos` | agent/src/flowguard_agent/workflows/critical_operation.py:394-409 | the poll's status is taken over and reported; a failed poll leaves both alone |
| `WorkflowRun.CriticalOperationWorkflow.Monitor` | agent/src/flowguard_agent/workflows/critical_operation.py:447-558 | the loop, with its guard, waits, wakes and time-outs, ends in the machine's own state |
| `WorkflowRun.CriticalOperationWorkflow.AfterWait` | agent/src/flowguard_agent/workflows/critical_operation.py:471-550 | one iteration after its wait is one step of the machine, signals that came meanwhile included |
| `WorkflowRun.CriticalOperationWorkflow.HandleWake` | agent/src/flowguard_agent/workflows/critical_operation.py:474-524 | one difference handled, in the order suspension, device, congestion |
| `WorkflowRun.CriticalOperationWorkflow.HandleTimeout` | agent/src/flowguard_agent/workflows/critical_operation.py:525-550 | the chunk counts against one budget and is bought when both still have room and the device is there |
| `WorkflowRun.CriticalOperationWorkflow.ProtectSuspended` | agent/src/flowguard_agent/workflows/critical_operation.py:560-629 | a recorded decision, then a slice if the policy asks and none is held; exactly when it ends with one is `Responses.HaltIsProtected` |
| `WorkflowRun.CriticalOperationWorkflow.ReassessCongestion` | agent/src/flowguard_agent/workflows/critical_operation.py:631-699 | a slice only if one was already due or the policy now asks; never less than before |
| `WorkflowRun.CriticalOperationWorkflow.Release` | agent/src/flowguard_agent/workflows/critical_operation.py:701-727 | nothing recorded, nothing to do; otherwise up to ten attempts, RELEASED on the complete one; the ten are counted in `Responses.ReleaseTakesUpToTenAttempts` |
| `WorkflowRun.CriticalOperationWorkflow.Receive` | agent/src/flowguard_agent/workflows/critical_operation.py:119-153 | each handler writes its own field |
| `WorkflowRun.CriticalOperationWorkflow.Wait` | agent/src/flowguard_agent/workflows/critical_operation.py:461-470 | signals are handled as they come until the awaited condition or its time-out is next |
| `WorkflowRun.AloneIsARun` | agent/src/flowguard_agent/workflows/critical_operation.py:162-371 | the object's run is one of the histories the other theorems quantify over |
| `Decisions.JudgementIs` | agent/src/flowguard_agent/policy/rules.py:114-194 | the action, by criticality, threshold and reading: a law stated apart from the chain of conditions |
| `Decisions.RuleNamesTheReason` | agent/src/flowguard_agent/policy/rules.py:114-194 | each rule is named if and only if its reason holds |
| `Decisions.SuspensionJudgementIs` | agent/src/flowguard_agent/policy/rules.py:74-112 | a halted load is protected to the full whatever the network is like, unless its device is absent |
| `Decisions.GrantedExactlyWhenDeserved` | agent/src/flowguard_agent/workflows/critical_operation.py:162-371 | over whole runs: routine work is never granted anything; a judged run that has not failed and is not still trying holds a session if and only if its work deserves one, and is decided a slice if and only if it deserves that |
| `Decisions.GrantedByAWorker` | agent/src/flowguard_agent/policy/rules.py:35-43 | the same with the settings a worker runs with, by level |
| `Decisions.FailedAssessmentIsDecided` | agent/src/flowguard_agent/workflows/critical_operation.py:230-270 | a failed assessment spends nothing when failing closed and is protected as the worst when failing open |
| `Responses.HaltIsProtected` | agent/src/flowguard_agent/workflows/critical_operation.py:605-629 | after a wake that handles a halt the operation holds a slice if and only if it held one, or the device is not reported absent, the settings allow slices, one is ready and attaching did not raise; the attachment is then on the network |
| `Responses.OwedSliceIsAttached` | agent/src/flowguard_agent/workflows/critical_operation.py:643-699 | the same of a new reading when a slice is still owed or now asked for |
| `Responses.ReleaseTakesUpToTenAttempts` | agent/src/flowguard_agent/workflows/critical_operation.py:701-727 | over whole runs: given up if and only if exactly ten attempts were made and none worked, done if and only if one worked, and the next attempt is due until then |
| `Responses.AllocationTakesUpToThreeAttempts` | agent/src/flowguard_agent/workflows/critical_operation.py:309-340 | over whole runs: a session is recorded if and only if one of at most three attempts worked, and after three that did not the run has failed with nothing held |
| `Responses.AllocationStartsAfresh` | agent/src/flowguard_agent/workflows/critical_operation.py:309-340 | after an allocation its status is awaited whatever was signalled before, and neither the level it was decided on nor any time gone by counts |
| `Responses.FullWaitIsExtended` | agent/src/flowguard_agent/workflows/critical_operation.py:525-550 | a full wait buys max(E, 30) seconds if and only if the device is not lost, both budgets still have room and the call works; a call that fails fails the run |
| `Responses.StatusIsReported` | agent/src/flowguard_agent/workflows/critical_operation.py:375-412 | the trail is told the status that was signalled, or else the one the poll found; the first poll finds the session available |
| `Responses.LatestSignalStands` | agent/src/flowguard_agent/workflows/critical_operation.py:119-153 | of a batch of signals the last of each kind is what stands |
| `Responses.SilenceChangesNothing` | agent/src/flowguard_agent/workflows/critical_operation.py:119-153 | what no signal of a batch speaks of stays as it was, and a completion is never taken back |
| `Responses.CompletionIsHonoured` | agent/src/flowguard_agent/workflows/critical_operation.py:471-472 | the wake that finds the operation completed starts the release and touches nothing else |
| `Responses.CompletionEndsTheLoop` | agent/src/flowguard_agent/workflows/critical_operation.py:454-460 | a completion that comes while the loop is busy ends it at the next look at the guard |
| `WorkflowSafety.EveryRunKeepsInv` | agent/src/flowguard_agent/workflows/critical_operation.py:309-371 | slice and attachment are recorded together, the action in force is at least the decided one, release starts from a recorded session, attempts stay within their limits, whatever the run |
| `WorkflowSafety.EscalateOnly` | agent/src/flowguard_agent/workflows/critical_operation.py:560-699 | over any stretch of any run the session id stays, a slice once held stays, the action in force never decreases, the trail only grows |
| `WorkflowSafety.AttachesAtMostOnce` | agent/src/flowguard_agent/workflows/critical_operation.py:560-699 | however suspensions and readings alternate, a run puts at most one attachment on the network |
| `WorkflowSafety.NoReadingUpgradesQod` | agent/src/flowguard_agent/policy/rules.py:114-194 | for every configuration, what is QOD under one congestion level is not a slice under any other |
| `WorkflowSafety.SliceNeedsSuspension` | agent/src/flowguard_agent/workflows/critical_operation.py:560-699 | after a QOD decision a slice is only ever in hand once the trail shows a suspension that asked for it |
| `WorkflowSafety.CongestionAloneNeverBuysASlice` | agent/src/flowguard_agent/workflows/critical_operation.py:631-699 | decided QOD and never reported halted: plain QoD to the end, whatever congestion does |
| `WorkflowTime.WakeSettlesOne` | agent/src/flowguard_agent/workflows/critical_operation.py:461-524 | a wake that is not a completion removes exactly one mismatch between observed and known state |
| `WorkflowTime.EachSignalAddsAtMostOne` | agent/src/flowguard_agent/workflows/critical_operation.py:119-153 | a batch of signals adds at most one mismatch each |
| `WorkflowTime.ReassessmentMeansADifference` | agent/src/flowguard_agent/workflows/critical_operation.py:512-524 | the re-decision is reached only when congestion truly differs from the last value acted on |
| `WorkflowTime.PotentialPaysForIterations` | agent/src/flowguard_agent/workflows/critical_operation.py:447-550 | iterations so far plus those still possible never exceed what the start and the signals allow |
| `WorkflowTime.MonitorTerminates` | agent/src/flowguard_agent/workflows/critical_operation.py:447-550 | at most 3 + N + ceil(4E/C) + ceil(900/C) iterations for N signals during monitoring |
| `WorkflowTime.EveryRunIsShort` | agent/src/flowguard_agent/workflows/critical_operation.py:162-371 | from the device check to the last release attempt a run takes at most 18 more steps than that |
| `WorkflowTime.NeverStuck` | agent/src/flowguard_agent/workflows/critical_operation.py:162-371 | until it is done there is always an outcome it is waiting for that can come about |
| `WorkflowTime.CountersAreRealTime` | agent/src/flowguard_agent/workflows/critical_operation.py:525-533 | each counter is real waiting time of its own kind, and together with the cut waits they are all of it |
| `WorkflowTime.ValveNeverFiresEarly` | agent/src/flowguard_agent/workflows/critical_operation.py:449-460 | a loop that ended with no completion and no failure had waited 4E unsuspended or 900 s suspended, whatever arrives during the release; neither counter passes its limit by a chunk |
| `WorkflowTime.RunKeepsGrants` | agent/src/flowguard_agent/workflows/critical_operation.py:525-550 | in every run the seconds asked for stay within the cap of whole chunks |
| `WorkflowTime.GrantCapInSeconds` | agent/src/flowguard_agent/workflows/critical_operation.py:72-94 | the cap is at most 5E + 958, and 4E + 959 from E = 30 |
| `WorkflowLapse.ForgoneIsLost` | agent/src/flowguard_agent/workflows/critical_operation.py:535-550 | while the loop lives, the chunks that went unbought are exactly those that passed while the device was lost |
| `WorkflowLapse.GrantTracksTheWait` | agent/src/flowguard_agent/workflows/critical_operation.py:525-550 | at any wait of any run, granted less waited is E + 60 less the cut waits and the lost chunks |
| `WorkflowLapse.WaitIsPaidIff` | agent/src/flowguard_agent/workflows/critical_operation.py:461-550 | the next seconds of a wait are paid for if and only if they, the cut waits and the lost chunks come to at most E + 60 |
| `WorkflowLapse.FullChunkIsPaidIff` | agent/src/flowguard_agent/workflows/critical_operation.py:535-550 | with no lost device on the trail granted is E + 60 + waited + suspended_for, and a full chunk C is paid for if and only if the cut waits total at most E + 60 - C |
| `WorkflowLapse.NoSecondGoesUnpaidIff` | agent/src/flowguard_agent/workflows/critical_operation.py:461-550 | over whole runs: no second of monitoring goes unpaid if and only if every wait, as it ends, fits in that room |
| `WorkflowLapse.FlappingBuysNothing` | agent/src/flowguard_agent/workflows/critical_operation.py:461-524 | readings that keep changing let any time go by without an extension, a count or a record |
| `WorkflowLapse.GuaranteeCanLapse` | agent/src/flowguard_agent/workflows/critical_operation.py:461-550 | so some run waits longer than it was granted by any amount, with nothing lost and nothing failed |
| `WorkflowLapse.LapsesInsideAWait` | agent/src/flowguard_agent/workflows/critical_operation.py:535-550 | and some run is covered up to a wait that runs past the grant before its extension |
| `Fleet.NothingLeaks` | agent/src/flowguard_agent/workflows/critical_operation.py:309-358 | in every interleaving the network's sessions and attachments are the disjoint union of what the operations account for |
| `Fleet.EndedOperationHoldsOnlyOrphans` | agent/src/flowguard_agent/activities/network.py:112-124 | an operation that gave back holds no attachment and at most two orphans, each still REQUESTED for E + 60 s |
| `Fleet.QuietNetworkIsEmpty` | agent/src/flowguard_agent/workflows/critical_operation.py:355-358 | all ended well and no cleanup ever failed: the network is empty |
| `Fleet.OneStepLeavesOthersAlone` | agent/src/flowguard_agent/activities/network.py:182-219 | whatever one operation does, its release included, every other keeps exactly what it held |
| `Fleet.GrantedSecondsAreExactAndCapped` | agent/src/flowguard_agent/workflows/critical_operation.py:312-322 | the duration on the network is the one in the books to the second, capped, and expires that long after it started |
| `Fleet.EachOperationIsARun` | agent/src/flowguard_agent/workflows/critical_operation.py:162-371 | an operation in a fleet is a run of its own against the network as it met it |
| `Fleet.StepKeeps` | agent/src/flowguard_agent/workflows/critical_operation.py:309-727 | every step of the machine moves the network by exactly the change in its operation's account |
| `Trail.PrefixParses` | agent/src/flowguard_agent/workflows/critical_operation.py:765-791 | a trail cut short is still a trail |
| `Trail.TrailsAreOrdered` | agent/src/flowguard_agent/workflows/critical_operation.py:162-371 | RELEASED once and last; ALLOCATED fifth, after a decision other than NONE, and a second time only for the missing slice |
| `Trail.EveryTrailIsGrammatical` | agent/src/flowguard_agent/workflows/critical_operation.py:162-371 | every run, at every point, has written such a trail; it ends in RELEASED exactly when the run gave back |
| `TrailTruth.EveryTrailTellsTheTruth` | agent/src/flowguard_agent/workflows/critical_operation.py:162-371 | in every run: an unreachable device ends it; the records say what was read, judged and decided, and by which rule; ALLOCATED and RELEASED name the session and slice on record; a slice held is on the trail |
| `ReadModel.ProjectionIs` | server/src/decision-log/decision-log.service.ts:133-167 | what the dashboard shows as held, exactly, for any trail with completion notes anywhere in it |
| `ReadModel.ProjectionAgreesExactlyWhen` | client/src/types/operation.ts:105-115 | it is the truth if and only if the last item is neither a refusal while holding nor a completion note after the release |
| `ReadModel.ReadModelAgreesIff` | server/src/decision-log/decision-log.service.ts:152-159 | a trail is shown correctly at every point if and only if no NONE was decided after the allocation |
| `ReadModel.CompleteTrailEndsCompleted` | server/src/decision-log/decision-log.service.ts:163-167 | a run that gave back is shown COMPLETED, stamped, holding nothing |
| `ReadModel.RefusalMidRunIsAHaltWithoutDevice` | agent/src/flowguard_agent/workflows/critical_operation.py:580-600 | a wake writes that NONE if and only if a halt is handled while the device is reported unreachable |
| `ReadModel.RunIsShownRightlyIff` | server/src/decision-log/decision-log.service.ts:152-159 | a run is shown correctly at every point if and only if no wake of it handled a halt while the device was reported unreachable |
| `ReadModel.HaltWithoutDeviceReadsAsOver` | server/src/decision-log/decision-log.service.ts:155-159 | after such a wake the session is still out and the dashboard shows nothing |
| `ReadModel.HaltWithoutDeviceIsReachable` | agent/src/flowguard_agent/workflows/critical_operation.py:476-481 | a run from the start comes to such a wake |
| `ReadModel.HeldSessionCanGoUnshown` | client/src/types/operation.ts:105-115 | so some run holds a session the dashboard does not show |
| `Dashboard.ShowsTheLatest` | server/src/decision-log/decision-log.service.ts:133-146 | every field shows the last word on it, and a record silent about it does not clear it |
| `Dashboard.StatusIsTheLatest` | server/src/decision-log/decision-log.service.ts:148-166 | a status is shown if and only if the last item that moves an operation puts it there |
| `Dashboard.StampedByReleaseOrRefusal` | server/src/decision-log/decision-log.service.ts:152-167 | a completion time is stamped if and only if a release or a refusal came |
| `Dashboard.DashboardNamesWhatIsHeld` | server/src/decision-log/decision-log.service.ts:133-146 | at every point of every run the dashboard names exactly the session and slice the workflow has on record |
| `DecisionLog.KeyIdentifiesTheEmit` | server/src/decision-log/decision-log.service.ts:188-191 | two keys are equal if and only if run, step and millisecond are |
| `DecisionLog.IsoIsInjective` | server/src/decision-log/decision-log.service.ts:188-191 | the printed instant loses nothing above a millisecond |
| `DecisionLog.RefusedIffSentBefore` | server/src/decision-log/decision-log.service.ts:50-95 | a delivery changes nothing if and only if the same emit arrived before |
| `DecisionLog.AtLeastOnceIsExactlyOnce` | server/src/decision-log/decision-log.service.ts:47-115 | log, operations and published notices are those of the first arrivals alone |
| `DecisionLog.ProjectionIsTheView` | server/src/decision-log/decision-log.service.ts:97-101 | emits delivered once each leave exactly the view of their trail |
| `DecisionLog.RetriesDoNotShow` | server/src/decision-log/decision-log.service.ts:47-115 | with any retries, the dashboard shows the view of the first arrivals |
| `DecisionLog.DashboardShowsTheRun` | server/src/decision-log/decision-log.service.ts:47-115 | from a workflow's own trail, with distinct stamps per step, delivered in turn with any retries: the log is that trail and the dashboard shows its view |
| `DecisionLog.LoggedWholeIff` | server/src/decision-log/decision-log.service.ts:50-95 | a trail delivered once is logged whole if and only if no step's records share a millisecond |
| `Dashboard.FirstArrivalPublishes` | server/src/decision-log/decision-log.service.ts:90-115 | a first arrival announces the operation it changed, if known, then the decision, then the session status if it carries one, and nothing else; a repeat announces nothing; other operations stay as they are |
| `Dashboard.EachDecisionIsAnnouncedOnce` | server/src/decision-log/decision-log.service.ts:47-115 | listeners hear of each decision once, in order of first arrival |
| `Dashboard.HolderIsTheFirst` | server/src/decision-log/adapters/mongo-decision-log.repository.ts:39-61 | the organization on file for a key is that of its first arrival |
| `DecisionLog.DecisionLogService.Append` | server/src/decision-log/adapters/mongo-decision-log.repository.ts:39-61 | inserted, refused as a duplicate, or refused and raising: by the unique key across organizations |
| `DecisionLog.DecisionLogService.ToOperationPatch` | server/src/decision-log/decision-log.service.ts:133-167 | the patch built field by field is the projection's patch |
| `DecisionLog.DecisionLogService.Record` | server/src/decision-log/decision-log.service.ts:47-115 | appends, patches a known operation and publishes, in that order; a refused record does none of it |
| `Facility.FacilitySystem.Dispatch` | server/src/facility/facility-system.base.ts:100-133 | conflict unless queued, nothing changed if the event is not accepted, else the first state entered; no other job touched |
| `Facility.FacilitySystem.Abort` | server/src/facility/facility-system.base.ts:149-165 | before the gate the job is over; past it, it is held: exactly when is `FacilityCommands.AbortDoes` |
| `Facility.FacilitySystem.Suspend` | server/src/facility/facility-system.base.ts:179-208 | held with the place remembered and the workflow told; already held, nothing; nothing committed, conflict |
| `Facility.FacilitySystem.Resume` | server/src/facility/facility-system.base.ts:217-236 | the workflow first, then back where it halted; stays held if the call fails |
| `Facility.FacilitySystem.FireTimer` | server/src/facility/facility-system.base.ts:299-309 | a step timer moves the job only from the state it was set in |
| `Facility.FacilitySystem.Transition` | server/src/facility/facility-system.base.ts:278-311 | the new state with its stamp, and a gate poll, a completion or a timer as the state demands |
| `Facility.FacilitySystem.PollGate` | server/src/facility/facility-system.base.ts:325-349 | opens on a decision, opens at the deadline, else polls again |
| `Facility.FacilitySystem.OpenGate` | server/src/facility/facility-system.base.ts:358-364 | records who authorised and when, then moves on |
| `FacilitySafety.EveryRunKeepsInv` | server/src/facility/facility-system.base.ts:93-380 | the whole job invariant, under any commands and timers, stale ones included |
| `FacilitySafety.StepKeepsInv` | server/src/facility/facility-system.base.ts:149-349 | one step stays, goes on one place, or drops an uncommitted job; a job that is over never changes |
| `FacilitySafety.GateIsNeverJumped` | client/src/types/facility.ts:100-131 | authorised if and only if committed; held only strictly between the gate and the end |
| `FacilitySafety.OnlyForward` | server/src/facility/facility-system.base.ts:278-311 | from any point of a run to any later one: places in order, no more of them than steps, committed never aborted, over is over |
| `FacilitySafety.CompletionIsSignalledOnce` | server/src/facility/facility-system.base.ts:293-296 | at every point of every run the completions signalled are one if the job is over and none if not |
| `FacilitySafety.GateNeverBlocks` | server/src/facility/facility-system.base.ts:325-349 | a job at its gate always has a poll to come, and the sixty-first, at the latest, lets it through |
| `FacilitySafety.PollLeavesOrCounts` | server/src/facility/facility-system.base.ts:328-346 | what one poll comes to: leaves with the right authorisation, or counts one more |
| `FacilitySafety.DecisionIffAPollSawOne` | server/src/facility/facility-system.base.ts:332-343 | authorised by DECISION if and only if a poll saw one; by TIMEOUT only after the deadline, with none seen |
| `FacilityTime.UndisturbedJobTakesExactly` | server/src/facility/facility-system.base.ts:22-23 | with exact timers: the sum of its durations plus half a second per empty poll, thirty seconds at most |
| `FacilityTime.RunsOnTime` | server/src/facility/facility-system.base.ts:298-310 | and it does finish, within its states and sixty-one polls |
| `FacilityTime.ReachesPlace` | server/src/facility/facility-system.base.ts:298-310 | every place of every lifecycle is reached by a run, on time |
| `FacilityTime.OldTimerMovesIff` | server/src/facility/facility-system.base.ts:301-309 | at any later point of any run, a timer set in the state a job halted from moves it if and only if it is not held then and still at that place |
| `FacilityTime.OldTimerMovesIffDueAfter` | server/src/facility/facility-system.base.ts:301-309 | with exact timers and one hold: if and only if it is due no earlier than the resume |
| `FacilityTime.OldTimerOutlivesAHold` | server/src/facility/facility-system.base.ts:170-172 | a run from dispatch that halts on entering a state, resumes when its duration is up, and goes on the same instant |
| `FacilityTime.EveryRunIsHeard` | server/src/facility/facility-system.base.ts:179-236 | the workflow believes suspended exactly while the job is held and that hold was told, completed exactly once it is over and the call got there |
| `FacilityCommands.CommandsDo` | server/src/facility/facility-system.base.ts:149-236 | for every job of every run: aborting cancels if and only if it is under way with nothing committed, suspending halts if and only if it is committed and moving, resuming puts it back if and only if it is held and its workflow could be told |
| `FacilityCommands.AbortDoes` | server/src/facility/facility-system.base.ts:149-165 | cancelled, stamped and signalled; halted instead; or unchanged: each if and only if, with the reply |
| `FacilityCommands.SuspendDoes` | server/src/facility/facility-system.base.ts:179-208 | halted where it was with the reason and its workflow told, or unchanged, and the reply |
| `FacilityCommands.ResumeDoes` | server/src/facility/facility-system.base.ts:217-236 | put back with a timer of its own if and only if held and heard; otherwise held as it was, or refused |
| `FacilityCommands.DispatchDoes` | server/src/facility/facility-system.base.ts:100-133 | a queued job whose event is accepted is in its first state under that operation; otherwise nothing changes |
| `Assessment.GraphIsBounded` | agent/src/flowguard_agent/graph/assessment_graph.py:305-354 | at most three passes, one evidence step, one escalation entered, for every classifier, gatherer and limit, and in runs in which a node raises |
| `Assessment.SafetyCriticalIsVerified` | agent/src/flowguard_agent/graph/assessment_graph.py:313-317 | a safety-critical verdict leaves only after the evidence was looked at, and never as LOW |
| `Assessment.UnsureOnlyWhenExhausted` | agent/src/flowguard_agent/graph/assessment_graph.py:319-332 | a verdict below the threshold leaves only at the attempt limit or with nothing left to try |
| `Assessment.ContradictionCapsTheVerdict` | agent/src/flowguard_agent/graph/assessment_graph.py:252-268 | contradicted evidence leaves neither HIGH nor safety-critical |
| `Assessment.UntrueSafetyClaimNeverSurvives` | agent/src/flowguard_agent/graph/evidence.py:41-53 | if looking would contradict it, no verdict leaves safety-critical, because such a claim is always looked at |
| `Assessment.PathIs` | agent/src/flowguard_agent/graph/assessment_graph.py:305-332 | the path exactly, for every classifier: one of three, when each is taken, which answer and evidence it ends with, and when a node raises |
| `Assessment.SoundVerdictSurvives` | agent/src/flowguard_agent/graph/assessment_graph.py:222-303 | the verdict is the last answer unless a location check that came back disproved the claim, which takes a HIGH or safety-critical answer to plain MEDIUM; a safety claim that stands is never LOW; escalated if and only if the trace has an escalation |
| `Assessment.ValidateInPlace` | agent/src/flowguard_agent/graph/assessment_graph.py:222-303 | the assessment changed in place is the validated verdict; what that keeps and corrects is `Assessment.SoundVerdictSurvives` |
| `Assessment.RunGraph` | agent/src/flowguard_agent/graph/assessment_graph.py:334-354 | the nodes run along the edges give the verdict and the trace of the function the claims are about |
| `EndToEnd.ContradictedClaimNeverHoldsASlice` | agent/src/flowguard_agent/workflows/critical_operation.py:272-307 | contradicted evidence: QoD at most, and never a slice without a reported halt, for every classifier, policy and history |
| `EndToEnd.ModerateWorkIsAtMostQod` | agent/src/flowguard_agent/policy/rules.py:114-194 | work neither HIGH nor safety-critical is never decided a slice |
| `Analysis.BuildHolds` | client/src/features/analysis/analysis-model.ts:174-207 | one sample whenever the set of holding runs changes, each one more or one fewer; zeros counted; the earliest maximum |
| `Analysis.HoldsMoveByOne` | client/src/features/analysis/analysis-model.ts:160-172 | successive samples differ by exactly one, and the last is the number of runs whose latest event is an allocation |
| `Analysis.HoldersOneMore` | client/src/features/analysis/analysis-model.ts:188-198 | a record moves at most its own run in or out of the set the definition gives |
| `Analysis.SortByTime` | client/src/features/analysis/analysis-model.ts:86-88 | in order of time, nothing added or dropped, records of one time in the order they came |
| `Analysis.GroupByOperation` | client/src/features/analysis/analysis-model.ts:90-95 | each operation once, in order of appearance, with its own records in order |
| `Analysis.CountCells` | client/src/features/analysis/analysis-model.ts:112-129 | each cell's count, action tallies and their order of appearance are those of the operations with its two facts |
| `Analysis.Dominant` | client/src/features/analysis/analysis-model.ts:140-140 | the greatest tally, and of equal ones the one that came first |
| `Analysis.BuildMatrix` | client/src/features/analysis/analysis-model.ts:112-144 | nine cells row by row, each with its count and the action that leads there; together, every operation with all three facts |
| `Analysis.BuildAnalysis` | client/src/features/analysis/analysis-model.ts:81-104 | from a page of the log in any order to matrix, samples, zeros and peak: each operation that has all three facts is counted once |
| `Analysis.ClassifiedWereDecided` | client/src/features/analysis/analysis-model.ts:231-251 | the matrix never shows more operations than were decided |
| `Figures.FactsAreTheEarliest` | client/src/features/analysis/analysis-model.ts:113-120 | an operation counts by the first record with a criticality, the first with a congestion and its earliest DECIDED, and only with all three |
| `Figures.TrailIsTheOperations` | client/src/features/analysis/analysis-model.ts:90-95 | its trail is every record of it and no other, in the order of the log |
| `Figures.CellCountsOperations` | client/src/features/analysis/analysis-model.ts:122-126 | a cell's count is the number of operations with its two facts |
| `Figures.TallyCountsOperations` | client/src/features/analysis/analysis-model.ts:122-126 | an action's tally is the number of them it was first decided for |
| `Figures.OrderIsOfFirstDecision` | client/src/features/analysis/analysis-model.ts:139-140 | ties go to the action first decided in the cell |
| `Figures.AppearingInOrder` | client/src/features/analysis/analysis-model.ts:90-95 | operations come in the order each was first seen |
| `Figures.SampledIffItChangesWhoHolds` | client/src/features/analysis/analysis-model.ts:174-207 | a record is sampled, with its time and the count it leaves, if and only if it is an allocation by a run that held nothing or a release by one that held |
| `Figures.ZeroSamplesCounts` | client/src/features/analysis/analysis-model.ts:174-207 | the returns to zero are the samples at zero |
| `RateLimiter.PruningIsInvisible` | server/src/auth/login-rate-limiter.ts:57-67 | with a clock that does not run backwards every history gets the verdicts of a limiter that never prunes |
| `RateLimiter.FewerThanTwiceTheLimit` | server/src/auth/login-rate-limiter.ts:34-50 | any interval one window long admits at most 2·limit − 1 hits of a steady key, and none at limit 0 |
| `RateLimiter.TheBoundIsAttained` | server/src/auth/login-rate-limiter.ts:34-50 | for every limit of one or more and window of two milliseconds or more, some history admits exactly that many |
| `RateLimiter.PruningKeepsTheBound` | server/src/auth/login-rate-limiter.ts:34-67 | the verdicts of the limiter that prunes keep that bound, and reach it |
| `RateLimiter.RetryAfterIsLeast` | server/src/auth/login-rate-limiter.ts:46-49 | the seconds told are the least, one at least, that reach the reset |
| `LoginWindows.LetThroughIffWithinTheLimit` | server/src/auth/login-rate-limiter.ts:34-50 | after any history an attempt is let through if and only if it is within the limit counting from the attempt that opened its window |
| `LoginWindows.TheStoreSays` | server/src/auth/login-rate-limiter.ts:34-55 | a key has a window if and only if some attempt opened it, which says when it closes and how many it has counted |
| `RateLimiter.LoginRateLimiter.PruneIfLarge` | server/src/auth/login-rate-limiter.ts:62-67 | the loop removes exactly the expired windows, and only in a large map |
| `RateLimiter.LoginRateLimiter.Hit` | server/src/auth/login-rate-limiter.ts:34-50 | verdict and windows after one attempt on a pruned map |
| `RateLimiter.LoginRateLimiter.Clear` | server/src/auth/login-rate-limiter.ts:53-55 | forgets that key only |

## Left out

- Temporal replay, worker crashes, cancellation, and activities that take effect but lose their answer: an attempt is atomic.
- The repeated attempts of an escalation, a read, a poll or an extension: each is one step with the last attempt's outcome, since a failed attempt changes nothing. The attempts of allocation and release, which may leave something behind, are steps of their own.
- Emits that fail: the trail is what the workflow attempts to emit, which is what its non-fatal `_emit` promises.
- The Nokia provider: the network is the mock, whose deletions are idempotent. Nothing here is claimed of a repeated deletion against the live API.
- Aliasing of a session object between the provider and its caller: the activities only read it at once.
- Signals that arrive while a step's own activities run are listed with the step and handled before the next look at the guard.
- An expected duration below one second: the server refuses such an event (`server/src/events/dto/create-business-event.dto.ts:67-69`), and the bounds in E are for E of at least one.
- Prompts, models, tracing and the classifier's keyword lists: classifier and gatherer are arbitrary functions.
- Reasoning text, and validate's note about thin reasoning: no decision reads it.
- The wording of a location verdict: claims are about `Evidence.contradicted` only, since `agent/src/flowguard_agent/tools/network_tools.py:174-182` renders every verdict other than TRUE as a contradiction.
- A failure inside `record` between its append and its patch: one delivery is one step.
- Parsing of timestamps, years of more than four digits, and server-clock stamps beyond whether one is set.
- Races inside an `await` of the facility service, decision reads that throw, and `reset`: commands, callbacks and polls are one step each. With `reset` go lazily seeded plans and their tenants: one plan is modelled.
- A job's own copy of its lifecycle and gate: it is the system's, as every adapter seeds it. Lifecycles with repeated or reserved names, a gate that comes last, or an untimed state other than the gate are not modelled.
- Time between the end of monitoring waits: signals, activities and the wait for QoD take none, so paid seconds are counted over the waits of the monitor.
- Realtime publishing by the facility, and its logging.
- Records whose timestamp does not parse, when the page is sorted: comparing them gives NaN and the engine decides. The replay itself (`Analysis.BuildHolds`) is modelled for them.
- Rule counts, latencies and percentages of the analysis page: easy members.
- React pages, sessions and authentication plumbing, Mongo adapters beyond the unique key, the simulator and configuration.
