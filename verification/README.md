# flyball: a Dafny model

flyball runs a rig of sensors and actuators (the engine, in Python) under a process supervisor (the
daemon, in Go). This project models the parts of it whose correctness is not to be read off one
function, and proves what they are for: an estimator that equals a batch fit, a supervisor and a
program runner whose steps interleave, a re-entrant delivery of samples, control laws that neither wind
up nor bump, simulated time and plants that do not depend on how they are stepped, a store whose rows
keep their times, a recorder that loses nothing, configuration layers, and two wire codecs.

`dafny verify dfyconfig.toml` checks the whole project.

## How it is built

- One module for each part, each in its own file. `LinearAlgebra` holds vectors and matrices of any
  width; `Options` the missing value.
- What the source computes is a function on values. Where the source updates fields in place, a class
  with those fields does too, and each method's contract equates the new fields with that function of
  the old. The theorems are about the functions, and so about the classes.
- Threads under one lock are steps of a transition system: a step is what happens under the lock, or
  one thing between. Theorems about runs hold for every interleaving of them. In `Programmer`,
  `_apply_atomics` holds the lock throughout; the model lets others in between its steps too, which
  only adds interleavings.
- Floats are reals; rounding is left out, but for the nanoseconds of the simulated clock, where it is
  the point. `exp` is a parameter with `exp(0) = 1` and `exp(x + y) = exp(x) exp(y)`, where anything
  of it is needed.
- What the operating system, a driver, a callback or a store does is a parameter: a script of commit
  results, a function giving what the n-th call does, a flag saying whether a spawn worked.

| file | models |
|---|---|
| `Rls.dfy`, `LinearAlgebra.dfy` | `adaptive/rls.py` |
| `Supervisor.dfy` | `daemon/internal/backend/process.go` |
| `Plant.dfy`, `Clock.dfy` | `flyball_sim/plant.py`, `flyball_sim/clock.py` |
| `Programmer.dfy` | `sequencing/programmer.py` |
| `Rig.dfy` | the delivery in `rig/rig.py` |
| `Laws.dfy`, `Controller.dfy`, `Setpoint.dfy`, `Feedforward.dfy` | the control kernel |
| `Store.dfy`, `Recorder.dfy` | `record/sqlite.py`, `runtime/recorder.py` |
| `Autotune.dfy`, `Fit.dfy` | the relay experiment, the settling window, and the fit to a step response |
| `Overlay.dfy` | `runtime/overlay.py` and `rigfile/overlay.go` |
| `Crc.dfy`, `Websocket.dfy` | `_sensirion.py`, `wsclient.go` |

## Where the code does not do what one would expect of it

Each is stated as a lemma, with the exact condition under which the code does meet the expectation and
an input or a run from the initial state at which it does not.

- `RecursiveLeastSquares.confidence` is said to fall as the covariance shrinks. Of two traces the smaller
  has the lesser confidence only where it is no longer positive (`Rls.FallsOnlyToNothing`), which no run
  comes to: there it rises whenever the trace shrinks (`Rls.ConfidenceRises`,
  `Rls.OneSampleRaisesConfidence`).
- A program whose wait times out is reported as finished, its other steps never run
  (`Programmer.TimedOutIsFinished`, `Programmer.TimedOutRun`); `Programmer.WhatEndingsMean` says what each
  outcome means.
- A period that `schedule` accepts may round to no nanoseconds, and `advance` then never returns once it
  is due (`Clock.AcceptedButNone`, `Clock.LoopEndsIff`); two advances equal one exactly when their
  nanoseconds add up (`Clock.AdvanceSplits`, `Clock.TwiceIsNotOnce`).
- `resume` promises that the first step reproduces what was seeded; an open loop steps to zero, and a
  relay switches when the reading is outside its dead band (`Laws.FirstStepReproduces`).
- A commit that raises leaves its readbacks queued; they are delivered only after the next samples, so
  acceptance order is kept exactly while nothing is left queued (`Rig.OrderKeptIff`, `Rig.OrderIsLost`).
- A null in an overlay deletes only where the base has mappings all the way down to it; elsewhere the
  null itself is taken into the result (`Overlay.NullDeletes`), and `--set KEY=null` differs from merging
  exactly there (`Overlay.DeleteIsMerge`).
- A monotone table that gives one setpoint two demands has demands no setpoint gives back
  (`Feedforward.TableEvaluatesItsInverse`).
- `declare` shows its signals before it queues them: a sample recorded between reaches the store
  undeclared, unless the two are serialised as the rig does (`Recorder.AnnouncedIff`,
  `Recorder.UnserialisedIsNot`).
- With no cycle to average, the relay experiment fails on an empty mean (`Autotune.EmptyMeanIff`,
  `Autotune.NoCyclesFails`); with at least one it cannot fail but by its timeout, so its own guard against
  a small response is never reached (`Autotune.RelayNeverFails`).
- `ReadMessage` passes over what is not text, but for a fragmented binary message, whose continuations it
  returns as one (`Websocket.BinaryIsSkippedIff`, `Websocket.BinaryComesBack`).

## Model

| member | source | states |
|---|---|---|
| Rls.RecursiveIsBatchFit | engine/src/flyball/adaptive/rls.py:71-115 | After any run of samples, at any width and whether or not the cap fires, the parameters are the one minimiser of the forgetting-weighted squared error |
| Rls.CovarianceStaysSound | engine/src/flyball/adaptive/rls.py:83-115 | After any run the covariance is symmetric and positive semidefinite, its trace within the limit, and the next denominator at least `forgetting`: no division by zero |
| Rls.FoldTracks | engine/src/flyball/adaptive/rls.py:83-102 | One update keeps the covariance the inverse of the weighted information and the parameters the solution of the normal equations |
| Rls.FoldLeftInverse | engine/src/flyball/adaptive/rls.py:97-102 | Sherman-Morrison: the rank-one correction of the covariance undoes the grown information |
| Rls.FoldRightInverse | engine/src/flyball/adaptive/rls.py:97-102 | And the grown information undoes the corrected covariance |
| Rls.CauchySchwarz | engine/src/flyball/adaptive/rls.py:88-90 | The bound on the covariance's quadratic form that keeps it positive under the correction |
| Rls.CapTracks | engine/src/flyball/adaptive/rls.py:107-115 | The cap rescales the whole problem, so the parameters still solve it, and brings the trace to the limit |
| Rls.CapKeepsShape | engine/src/flyball/adaptive/rls.py:107-115 | Where the cap fires the trace is the limit exactly, and every entry is to it as it was to the trace; where it does not, nothing is touched |
| Rls.UncappedCost | engine/src/flyball/adaptive/rls.py:71-105 | With no cap, what is minimised is the exponentially weighted sum of squared misses and the prior |
| Rls.UncappedHistory | engine/src/flyball/adaptive/rls.py:107-111 | A run in which the cap never fires has exactly its samples as history |
| Rls.RunAppended | engine/src/flyball/adaptive/rls.py:71-105 | A run with one more sample is one more update of the run |
| Rls.FallsOnlyToNothing | engine/src/flyball/adaptive/rls.py:54-58 | Of two traces the smaller has less confidence, as described, exactly when it is not positive and the other is |
| Rls.ConfidenceRises | engine/src/flyball/adaptive/rls.py:54-105 | In no run is that so: the trace stays positive where there is a parameter, so one more sample raises the confidence exactly when it shrinks the trace, and it is never the zero said to mean nothing learned |
| Rls.OneSampleRaisesConfidence | engine/src/flyball/adaptive/rls.py:54-105 | It happens at the first sample: trace from 1 to 1/2, confidence from 1/2 to 2/3 |
| Rls.RecursiveLeastSquares.constructor | engine/src/flyball/adaptive/rls.py:37-48 | Zero parameters and a diagonal covariance |
| Rls.RecursiveLeastSquares.Reset | engine/src/flyball/adaptive/rls.py:60-63 | Back to zero parameters and a diagonal covariance |
| Rls.RecursiveLeastSquares.Update | engine/src/flyball/adaptive/rls.py:71-105 | The residual before the update and the state the update leads to; a wrong width changes nothing |
| Rls.RecursiveLeastSquares.Correct | engine/src/flyball/adaptive/rls.py:94-95 | The loop over the parameters adds the gain times the residual |
| Rls.RecursiveLeastSquares.Shrink | engine/src/flyball/adaptive/rls.py:97-102 | The nested loops over the cells leave the corrected covariance, though each cell is overwritten in place |
| Rls.RecursiveLeastSquares.BoundCovariance | engine/src/flyball/adaptive/rls.py:107-115 | The state with its trace capped |
| Supervisor.OneProcessOneSupervisor | daemon/internal/backend/process.go:127-445 | In every interleaving a runner has at most one OS process unreaped and one supervisor not returned; `alive` holds exactly in starting and running; the backoff is within its bounds |
| Supervisor.NothingSpawnedAfterStop | daemon/internal/backend/process.go:231-385 | Once `stopping` is set nothing is spawned in any continuation |
| Supervisor.StopLeavesNothing | daemon/internal/backend/process.go:366-398 | When the supervisor a stop waits for has returned, every process is reaped and every supervisor returned, for good |
| Supervisor.RestartIsHonoured | daemon/internal/backend/process.go:229-435 | A restart that returned nil is followed by a fresh spawn attempt, at once or at the supervisor's next region, unless a stop comes |
| Supervisor.RestartIsServed | daemon/internal/backend/process.go:226-452 | Until then that next step can be taken, in a backoff on the wake token, unless the process waited for has yet to end and is killed or has a kill set for it |
| Supervisor.SpawnNeedsAReason | daemon/internal/backend/process.go:238-425 | A runner is tried again only on a restart request, or on waking after an exit that its policy answers so: always after any code but 2, on-failure after any but 0 and 2 |
| Supervisor.PolicyDecides | daemon/internal/backend/process.go:229-258 | With neither a stop nor a restart pending: under always after any code but 2, and under on-failure after any but 0 and 2, the runner is left restarting, to wait as long as before or, if it had answered its probe, from the bottom; otherwise it is given up, failed unless the code was 0 |
| Supervisor.PolicyIsFollowed | daemon/internal/backend/process.go:238-288 | In every run such an exit is followed by a spawn attempt, at the latest when the supervisor wakes, unless a stop comes; and until then the end of the backoff, or the waking, can be taken |
| Supervisor.WaitsDouble | daemon/internal/backend/process.go:261-268 | The wait ends on the timer or a token, which it uses up, and the next is twice as long unless this was half a minute already |
| Supervisor.AttemptsSpawn | daemon/internal/backend/process.go:189-286 | An attempt leaves a new process, current, live and waited for, or the runner failed with nothing supervising it |
| Supervisor.StopIsServed | daemon/internal/backend/process.go:366-398 | After a stop the supervisor has returned by its next region, and until then its next step can be taken, unless it waits for a process that is killed or has a kill set for it |
| Supervisor.ReachedMeansAnswered | daemon/internal/backend/process.go:291-309 | A runner is running only if its current incarnation reached running, and it reached running only if that incarnation's probe was answered |
| Supervisor.AnsweredReaches | daemon/internal/backend/process.go:301-307 | An answer for the current incarnation, while it is alive, makes it so until another is spawned |
| Supervisor.PolicyIsAsGiven | daemon/internal/backend/process.go:133-140 | A start under a free name is refused exactly when its policy is none of the four known; otherwise the runner has that policy, on-failure for none given, for good |
| Supervisor.DelayedKillHitsItsOwn | daemon/internal/backend/process.go:430-445 | A delayed kill hits the incarnation it was set for, while that is current, or nothing |
| Supervisor.EveryRunIsGood | daemon/internal/backend/process.go:127-445 | The invariant of all runs, over the registry and every runner ever started |
| Supervisor.RunnerProc.Launch | daemon/internal/backend/process.go:189-202 | `spawn` on the runner's fields |
| Supervisor.RunnerProc.HandOver | daemon/internal/backend/process.go:211-215 | `superviseFrom` |
| Supervisor.RunnerProc.AfterWait | daemon/internal/backend/process.go:231-288 | The supervisor's region after the process has exited |
| Supervisor.RunnerProc.Decide | daemon/internal/backend/process.go:240-259 | Its part where neither a stop nor a restart was asked for: the policy and the exit code decide |
| Supervisor.RunnerProc.EndWait | daemon/internal/backend/process.go:261-268 | The end of a backoff, by the timer or a token, and its doubling |
| Supervisor.RunnerProc.AfterBackoff | daemon/internal/backend/process.go:270-288 | The supervisor's region after a backoff |
| Supervisor.RunnerProc.LaunchAgain | daemon/internal/backend/process.go:278-288 | The next incarnation, or the failure to start it |
| Supervisor.RunnerProc.Answered | daemon/internal/backend/process.go:301-308 | The probe marks only the incarnation it was started for |
| Supervisor.RunnerProc.AskStop | daemon/internal/backend/process.go:377-385 | `Stop` on the runner's fields |
| Supervisor.RunnerProc.AskRestart | daemon/internal/backend/process.go:414-434 | `Restart` on the runner's fields, with each error return |
| Supervisor.RunnerProc.FireKill | daemon/internal/backend/process.go:439-445 | `killIfStill` |
| Supervisor.ProcessBackend.Start | daemon/internal/backend/process.go:127-182 | A name taken, an unknown policy and a failed spawn each leave the registry as it was |
| Supervisor.ProcessBackend.Stop | daemon/internal/backend/process.go:370-385 | `Stop` deregisters and marks, up to its wait |
| Supervisor.ProcessBackend.Restart | daemon/internal/backend/process.go:407-435 | `Restart` through the registry |
| Plant.StepSplits | sim/src/flyball_sim/plant.py:154-173 | With the input held, stepping `a` then `b` is alike to stepping `a + b`: same output, same clock, nothing ahead that could tell them apart |
| Plant.StepKeepsAlike | sim/src/flyball_sim/plant.py:154-173 | States that are alike stay so under every step |
| Plant.AlikeForGood | sim/src/flyball_sim/plant.py:140-173 | And under any further inputs and steps |
| Plant.OnlyChangesMatter | sim/src/flyball_sim/plant.py:161-172 | Draining the pipe depends only on the entries that change the drive |
| Plant.OnlineIsOffline | sim/src/flyball_sim/plant.py:154-173 | However it is used, the lag has seen exactly the inputs, each `dead_s` late: the whole history drained at once |
| Plant.DeadTimeIsExact | sim/src/flyball_sim/plant.py:154-160 | A new input does nothing for the dead time and then acts as on the lag alone |
| Plant.FlowSplits | sim/src/flyball_sim/plant.py:84-88 | The lag held for `a` and then `b` is held for `a + b` |
| Plant.FillSplits | sim/src/flyball_sim/plant.py:113-119 | So is the integrator, with a leak or without |
| Plant.LagSettles | sim/src/flyball_sim/plant.py:75-88 | What `inverse_feedforward` promises: `ambient + gain * u` is left where it is by every step, and the distance to it shrinks by `exp(-d / tau)`, never passing it |
| Plant.HoldsTheDemand | sim/src/flyball_sim/plant.py:72-77 | The drive that `feedforward` gives holds the demand |
| Plant.LeftIs | sim/src/flyball_sim/plant.py:115-117 | What is left of a difference after draining is `exp(-leak * d)` of it, and some |
| Plant.TankSettles | sim/src/flyball_sim/plant.py:113-119 | With a leak the level that stays takes `gain * u` out as fast as it comes in, and any other comes towards it; without one the level rises by `gain * u * d` |
| Plant.TankHolds | sim/src/flyball_sim/plant.py:108-119 | The input that `feedforward` gives for a level holds it |
| Plant.FopdtSettles | sim/src/flyball_sim/plant.py:154-173 | Once the dead time is over, whatever was in the pipe, the distance to `ambient + gain * input` shrinks by `exp(-d / tau)` |
| Plant.OnlyTheSpanMatters | sim/src/flyball_sim/plant.py:206-230 | Through the advancer the plant has moved from the first instant to the latest as in one step, for any polls |
| Plant.OrderOfPollsIsNothing | sim/src/flyball_sim/plant.py:206-230 | Two ways of polling with the same first and latest instants leave plants that are alike |
| Plant.Lag.Step | sim/src/flyball_sim/plant.py:84-88 | The lag's step |
| Plant.Integrator.Step | sim/src/flyball_sim/plant.py:113-119 | The integrator's step |
| Plant.Fopdt.Step | sim/src/flyball_sim/plant.py:154-173 | The loop over the pipe against its recursive meaning |
| Plant.Fopdt.constructor | sim/src/flyball_sim/plant.py:127-142 | An empty pipe, the lag driven by the first input |
| Plant.Advancer.Advance | sim/src/flyball_sim/plant.py:224-230 | The first poll only marks the time; an earlier instant does nothing |
| Clock.FiresInOrder | sim/src/flyball_sim/clock.py:83-91 | Whatever callbacks do to the schedule, calls come in strict (time, sequence) order, none past the target, and none due is left |
| Clock.QuietFiresExactly | sim/src/flyball_sim/clock.py:83-91 | For callbacks that leave the schedule alone: what is called is each entry at each of its times up to the target and nothing else, in sequence, and what is left is each entry moved on past them and nothing else |
| Clock.OneOrder | sim/src/flyball_sim/clock.py:83-91 | Such a log is determined: calls in strict (time, sequence) order are one list |
| Clock.TimesAreMultiples | sim/src/flyball_sim/clock.py:86-90 | Those are every period from the first, up to and including the target |
| Clock.FireSplits | sim/src/flyball_sim/clock.py:83-91 | Stopping on the way changes neither the calls nor the schedule left, for any callbacks |
| Clock.AdvanceSplits | sim/src/flyball_sim/clock.py:70-94 | Advancing by `a` then `b` makes the calls and leaves the clock of `a + b`, exactly when the nanoseconds add up |
| Clock.TwiceIsNotOnce | sim/src/flyball_sim/clock.py:70-94 | They need not: 0.4 ns twice is nothing, 0.8 ns once is one |
| Clock.NanosecondsAreNearest | sim/src/flyball_sim/clock.py:55-85 | Seconds become the nearest whole number of nanoseconds, of two as near the even one |
| Clock.SchedulesAhead | sim/src/flyball_sim/clock.py:49-57 | Scheduling adds one entry, under a handle not used before, due one period from now; a period that is not positive is refused |
| Clock.CancelsOne | sim/src/flyball_sim/clock.py:59-62 | Cancelling takes out what has that handle and nothing else |
| Clock.AdvanceArrives | sim/src/flyball_sim/clock.py:70-94 | An advance ends where it was sent, and is refused for a negative time and from within another |
| Clock.LoopEndsIff | sim/src/flyball_sim/clock.py:86-90 | For callbacks that leave the schedule alone, the loop ends exactly when nothing due by the target has a period of no nanoseconds |
| Clock.PeriodSurvivesRounding | sim/src/flyball_sim/clock.py:51-55 | An accepted period is at least a nanosecond exactly when it is more than half of one |
| Clock.AcceptedButNone | sim/src/flyball_sim/clock.py:51-55 | An accepted period that rounds to none |
| Clock.SteppedClock.Schedule | sim/src/flyball_sim/clock.py:49-57 | A period that is not positive is refused; else the entry is queued under a new handle |
| Clock.SteppedClock.Cancel | sim/src/flyball_sim/clock.py:59-62 | The handle's entry is gone |
| Clock.SteppedClock.Advance | sim/src/flyball_sim/clock.py:70-94 | The loop, its errors for going backwards and for advancing from inside, and the flag cleared when a callback raises |
| Programmer.StepsInOrderAtMostOnce | engine/src/flyball/sequencing/programmer.py:195-303 | Steps run in order and at most once, `_step` never passes the end, and at most one command begins after the abort |
| Programmer.EachEndsOnce | engine/src/flyball/sequencing/programmer.py:154-341 | Each loaded program ends exactly once, one at a time, in the order loaded |
| Programmer.WhatEndingsMean | engine/src/flyball/sequencing/programmer.py:210-341 | What failed, interrupted and finished each mean, exactly |
| Programmer.TimedOutIsFinished | engine/src/flyball/sequencing/programmer.py:220-336 | Wherever a wait times out with nobody interrupting, two steps end the program as finished, its other steps not run |
| Programmer.TimedOutRun | engine/src/flyball/sequencing/programmer.py:154-341 | And it happens: a run from idle that ends so, the second of two steps never begun |
| Programmer.ActivityErrorFails | engine/src/flyball/sequencing/programmer.py:226-264 | In every run, once the activity a driver waits on has an error the program ends failed: no further command of it begins, and three of the driver's own steps, always there to take, end it |
| Programmer.RaiseFails | engine/src/flyball/sequencing/programmer.py:226-234 | So does a command that raises, or an activity that will not attach |
| Programmer.FailureHasAReason | engine/src/flyball/sequencing/programmer.py:226-264 | Nothing else ends a program failed |
| Programmer.FinishedNeverFailed | engine/src/flyball/sequencing/programmer.py:263-264 | A program that ended finished, or interrupted, was never at a wait whose activity had failed |
| Programmer.FailedRun | engine/src/flyball/sequencing/programmer.py:209-264 | From idle, two steps loaded, the first one's activity failing: the program is reported as failed, the second step never begun |
| Programmer.FiredGoesOn | engine/src/flyball/sequencing/programmer.py:209-277 | Where the wait ends fired and nobody interrupts, the next step begins, or the program is finished |
| Programmer.UnwindsAfterAbort | engine/src/flyball/sequencing/programmer.py:181-303 | After an abort whatever is waited on has settled, so the driver is never held up and ends within nine steps |
| Programmer.NeverReplaced | engine/src/flyball/sequencing/programmer.py:224-328 | A driver not yet over always finds its own program: the guards against another never act |
| Programmer.EveryRunIsSound | engine/src/flyball/sequencing/programmer.py:154-341 | The invariant of all runs |
| Programmer.Programmer.Load | engine/src/flyball/sequencing/programmer.py:154-163 | `load`, with its one error |
| Programmer.Programmer.RequestInterrupt | engine/src/flyball/sequencing/programmer.py:181-189 | `interrupt` up to its wait |
| Programmer.Programmer.Head | engine/src/flyball/sequencing/programmer.py:202 | The condition of the loop over immediate steps |
| Programmer.Programmer.Published | engine/src/flyball/sequencing/programmer.py:203-303 | The activity shown, and interrupted if the abort came first |
| Programmer.Programmer.Next | engine/src/flyball/sequencing/programmer.py:222-226 | The worker's region between steps |
| Programmer.Programmer.End | engine/src/flyball/sequencing/programmer.py:326-341 | The outcome, and everything cleared |
| Rig.DeliveredOnceInOrder | engine/src/flyball/rig/rig.py:594-1198 | Over any calls no sample is lost or delivered twice; when no commit raises, delivered is accepted, in order |
| Rig.CallKeepsAll | engine/src/flyball/rig/rig.py:1109-1137 | The same of one call, with what each reply means |
| Rig.FlushChains | engine/src/flyball/rig/rig.py:715-1137 | What is pushed in a delivery is the next delivery, after all its commits and before anything accepted later |
| Rig.LeftBehindComesLate | engine/src/flyball/rig/rig.py:1136-1192 | What a raising commit left queued is delivered only after the next samples |
| Rig.OrderKeptIff | engine/src/flyball/rig/rig.py:1109-1137 | So acceptance order survives a call exactly when nothing is left queued before it (or the samples are the same either way round) |
| Rig.OrderIsLost | engine/src/flyball/rig/rig.py:648-719 | And it happens: a rig just built, one commit that pushes its readback and raises |
| Rig.OneCommitEach | engine/src/flyball/rig/rig.py:607-1190 | In a delivery the devices that commit are exactly the committable, non-blocking ones a sample reached or a step put a demand on, once each |
| Rig.CommitsEachOnce | engine/src/flyball/rig/rig.py:648-664 | In the order first touched |
| Rig.OthersUnmoved | engine/src/flyball/rig/rig.py:1188-1227 | Whatever a controller does instead in a delivery, every other one takes the same steps, and is reported, as it would have been |
| Rig.RaisingLawIsContained | engine/src/flyball/rig/rig.py:1188-1227 | When a law raises, the same samples are delivered and the same controllers step; a commit raises only if it would have; and the devices that do not commit for it are exactly those nothing reached but the demands it did not come to make |
| Rig.LateRaiseCostsNothing | engine/src/flyball/rig/rig.py:1200-1227 | A step that raises with its demands and pushes made costs nothing, over the whole call: same deliveries, same commits, same record |
| Rig.FailuresAlternate | engine/src/flyball/rig/rig.py:1212-1227 | A controller's failure is reported once, and its recovery once, in turn |
| Rig.DeliveryQueues | engine/src/flyball/rig/rig.py:1128-1198 | A delivery delivers its own samples; what is pushed meanwhile is noted at once and queued |
| Rig.StepsAreReadings | engine/src/flyball/rig/rig.py:1165-1188 | In a delivery a controller is stepped exactly as often as readings have it as theirs, in the order of those readings |
| Rig.DeliveryPlays | engine/src/flyball/rig/rig.py:1187-1227 | What is pushed during a delivery is what the laws it stepped push and then what the devices it committed do, each its own acts in order; a controller's events are where it first raises and where it steps again |
| Rig.Rig.OnSamples | engine/src/flyball/rig/rig.py:1109-1137 | Inside a delivery noted and queued; outside delivered with all it brings; refused before anything is applied |
| Rig.Rig.DeliverSamples | engine/src/flyball/rig/rig.py:1139-1198 | One delivery, its loops against their meaning |
| Rig.Rig.Land | engine/src/flyball/rig/rig.py:1147-1186 | What the samples touch, in order, and which controllers they tick |
| Rig.Rig.Step | engine/src/flyball/rig/rig.py:1200-1227 | One controller's step and its events |
| Rig.Rig.Commit | engine/src/flyball/rig/rig.py:648-664 | One commit each, a blocking device's handed to its writer |
| Rig.Rig.FlushPushed | engine/src/flyball/rig/rig.py:715-719 | The loop until nothing is queued |
| Laws.NoLawWindsUp | engine/src/flyball/control/laws.py:83-522 | Over any run within the limits the integral's share of any of these laws never exceeds the larger of its start and D + M + ki tt E |
| Laws.NeverWindsUp | engine/src/flyball/control/laws.py:83-142 | The same of the integrator by itself, gains rescheduled as they may be |
| Laws.LawTicks | engine/src/flyball/control/laws.py:171-522 | A step of PI, PID, Smith or scheduled is a step of that integrator on the error the law sees |
| Laws.ResetAndResumeRun | engine/src/flyball/control/laws.py:87-112 | A reset and a handover start such runs |
| Laws.SeedsWhatItCanHold | engine/src/flyball/control/laws.py:47-568 | `resume` seeds exactly what was held, where and only where the law can hold it |
| Laws.FirstStepReproduces | engine/src/flyball/control/laws.py:93-586 | The first step returns what was seeded, exactly but for an open loop and a relay outside its dead band |
| Laws.ScheduleIsBumpless | engine/src/flyball/control/laws.py:506-512 | Rescheduling keeps the integral's contribution exactly when `ki` stays, both are non-zero, or there is none |
| Laws.SlidingIsLimited | engine/src/flyball/control/laws.py:585-586 | Sliding mode never asks for more than `k`, either way |
| Laws.PiActs | engine/src/flyball/control/laws.py:34-178 | What a PI puts out besides `integral * ki` is `kp * (b * setpoint - reading)`, with `b = 1` of the sign of the error; the integral grows by the error for as long as it lasted and by what was not delivered over the anti-windup time |
| Laws.PidActs | engine/src/flyball/control/laws.py:236-250 | The same of a PID where no derivative acts |
| Laws.DerivativeOpposes | engine/src/flyball/control/laws.py:242-247 | Unfiltered, the derivative takes `kd` times the rate at which the reading rises off the output |
| Laws.DerivativeIsFiltered | engine/src/flyball/control/laws.py:242-247 | Filtered, it takes `kd` times a rate that goes from the last one towards the reading's own, in the proportion of the step to the step and `1 / n` |
| Laws.TextbookPi | engine/src/flyball/control/laws.py:145-178 | From a reset, with everything asked for delivered, a PI is `kp` times the weighted error and `ki` times the sum of the errors, each for as long as it lasted |
| Laws.SmithPredicts | engine/src/flyball/control/laws.py:433-448 | The model moves towards `gain * (feedforward * setpoint + delivered)` as a lag does, and its delayed output is always what it had predicted by one dead time ago |
| Laws.SmithActs | engine/src/flyball/control/laws.py:449-451 | The PI behind the predictor sees the reading with the movement still on its way added |
| Laws.SmithRests | engine/src/flyball/control/laws.py:420-428 | Resumed, the model is at rest on the demand in force, with nothing on its way |
| Laws.GainsInterpolate | engine/src/flyball/control/laws.py:495-504 | Scheduled gains are each row's at its setpoint, on the line between two rows, flat beyond the ends |
| Laws.ScheduledActs | engine/src/flyball/control/laws.py:506-522 | A scheduled law steps as a PID on the gains of its setpoint |
| Laws.SlidingActs | engine/src/flyball/control/laws.py:570-586 | Sliding mode puts out its limit, towards the surface, outside the boundary layer and in proportion inside |
| Laws.SlidingIntegrates | engine/src/flyball/control/laws.py:573-584 | It integrates inside the layer or where that brings the surface back, and not when time runs back |
| Laws.OthersAct | engine/src/flyball/control/laws.py:41-348 | An open loop adds nothing, P is `gain` times the error, and a relay is high below its dead band, low above it, and as it was within |
| Laws.ResetForgets | engine/src/flyball/control/laws.py:87-418 | A reset forgets the run and keeps the gains |
| Laws.IComponent.Step | engine/src/flyball/control/laws.py:114-139 | The integrator with back-calculation; a step back in time changes nothing |
| Laws.IComponent.Resume | engine/src/flyball/control/laws.py:93-112 | The integral seeded for a correction, or none without `ki` |
| Laws.IComponent.SetKi | engine/src/flyball/control/laws.py:83-511 | New gains, the contribution kept |
| Laws.PidControl.Step | engine/src/flyball/control/laws.py:236-250 | A PID step with its filtered derivative |
| Laws.PidControl.Resume | engine/src/flyball/control/laws.py:232-234 | A PID handover |
| Laws.SlidingMode.Step | engine/src/flyball/control/laws.py:570-586 | The surface, the held integral, the saturation |
| Laws.SlidingMode.Resume | engine/src/flyball/control/laws.py:562-568 | The integral seeded within the limits |
| Laws.SmithModel.Predict | engine/src/flyball/control/laws.py:433-448 | The predictor's model and the loop over its pipe |
| Controller.TrackIsBumpless | engine/src/flyball/model/controller.py:328-486 | A tracked handover puts no step through the target exactly when the law in force can hold the output at the new setpoint |
| Controller.FirstTickReproduces | engine/src/flyball/model/controller.py:355-455 | The first tick at that instant returns the same correction and writes the same demand |
| Controller.DemandAimGivesTheDemand | engine/src/flyball/model/controller.py:305-318 | To aim at the demand is to aim at the setpoint whose feedforward asks for it |
| Controller.OutageIsOneStep | engine/src/flyball/model/controller.py:457-473 | A gap past three usual intervals counts as one in the law's time, any other as it is |
| Controller.LawTimeKeepsPace | engine/src/flyball/model/controller.py:408-473 | Over any run the law's time never runs backwards nor faster than the clock's, and no step of it is past three intervals |
| Controller.StepsNoFaster | engine/src/flyball/model/controller.py:436-452 | Two steps of the law are at least the least period apart |
| Controller.TicksThatDoNothing | engine/src/flyball/model/controller.py:430-455 | A reading sooner than the least period, or while held by hand, is only noted; one with no reference is refused |
| Controller.OpenTickFollows | engine/src/flyball/model/controller.py:430-485 | In open loop the demand follows the reference, and neither the law nor its correction moves |
| Controller.RegulatingTickSteps | engine/src/flyball/model/controller.py:430-485 | Regulating, the law steps on the reading, the setpoint at its time, its own time in seconds and what was delivered last; the demand is the feedforward and its correction |
| Controller.KeepLeavesTheLaw | engine/src/flyball/model/controller.py:357-385 | Handed over with no transfer, the law and its correction are left in the middle of their run |
| Controller.CarryAndRestart | engine/src/flyball/model/controller.py:368-385 | Carrying, the law starts afresh seeded with the correction in force; restarting, or with no reading, from nothing |
| Controller.AimsAt | engine/src/flyball/model/controller.py:305-385 | Where each source aims, when it is refused, and the bump: what is demanded less what was held |
| Controller.LateIsAsGood | engine/src/flyball/model/controller.py:475-501 | A deferred commit closes the tick as one at once would have |
| Controller.Controller.RegulateAt | engine/src/flyball/model/controller.py:328-385 | The handover on the controller's fields; a refused aim changes nothing |
| Controller.Controller.Aiming | engine/src/flyball/model/controller.py:305-318 | Where to aim, with each error |
| Controller.Controller.Seed | engine/src/flyball/model/controller.py:368-381 | The law seeded by each kind of transfer |
| Controller.Controller.OnReading | engine/src/flyball/model/controller.py:430-455 | A tick |
| Controller.Controller.Skip | engine/src/flyball/model/controller.py:457-473 | A gap kept out of the law's time |
| Controller.Controller.ApplyDemand | engine/src/flyball/model/controller.py:475-486 | The demand, what came of it, and the correction delivered |
| Setpoint.SegmentsMeet | engine/src/flyball/control/setpoint.py:133-151 | Each segment starts at the time and value where the one before landed, and the one in force is the one whose time it is |
| Setpoint.StaysWithin | engine/src/flyball/control/setpoint.py:41-151 | From the start on every value lies within the hull of the start value and the targets, at any depth |
| Setpoint.Lands | engine/src/flyball/control/setpoint.py:31-157 | A bounded trajectory lands at its landing value, no earlier than it started, and stays |
| Setpoint.FinishedNeverReverts | engine/src/flyball/control/setpoint.py:49-157 | Finished never reverts |
| Setpoint.RampMovesAtItsRate | engine/src/flyball/control/setpoint.py:31-47 | A ramp leaves from its start at the pace asked for, and `rate` is how it moves |
| Setpoint.LandsWhen | engine/src/flyball/control/setpoint.py:31-80 | A ramp given a time lands when that is over, one given a speed when it has covered the distance at it; a hold is where it is told to be from the first and lands, if ever, after its duration |
| Setpoint.InForceIsFirst | engine/src/flyball/control/setpoint.py:141-148 | The segment in force is the first not finished, else the last |
| Setpoint.LinearRampSetpoint.Begin | engine/src/flyball/control/setpoint.py:31-39 | The ramp's `start` |
| Setpoint.StartEach | engine/src/flyball/control/setpoint.py:133-139 | The loop that starts a profile's segments |
| Setpoint.ProfileRun.Begin | engine/src/flyball/control/setpoint.py:133-139 | A profile's `start`, and its end time |
| Setpoint.ProfileRun.At | engine/src/flyball/control/setpoint.py:141-151 | The search for the segment in force, kept as `active` |
| Feedforward.TableEvaluatesItsInverse | engine/src/flyball/control/feedforward.py:80-114 | Evaluating what a demand in range inverts to gives it back, at any rate, exactly when no setpoint is given two demands |
| Feedforward.TableInvertsItsEvaluation | engine/src/flyball/control/feedforward.py:80-114 | For strictly monotone demands inverting an evaluation returns any setpoint within the ends |
| Feedforward.OthersRoundTrip | engine/src/flyball/control/feedforward.py:52-63 | The affine feedforward and the identity round-trip both ways, where they invert at all |
| Feedforward.EvaluatesTo | engine/src/flyball/control/feedforward.py:39-84 | What each asks for: the setpoint, nothing, or a line in it, and with a rate gain that much more for the rate |
| Feedforward.TableReads | engine/src/flyball/control/feedforward.py:86-93 | A table gives each point its own demand, the line between two points, and is flat beyond the ends |
| Feedforward.JumpIsMissed | engine/src/flyball/control/feedforward.py:95-114 | The demand midway through a jump is given by no setpoint the inverse returns |
| Feedforward.OnSegment | engine/src/flyball/control/feedforward.py:86-93 | Between two points, both included, interpolation is the line through them |
| Store.EveryRunIsFaithful | engine/src/flyball/record/sqlite.py:818-992 | Over any run of trims, kept ranges and backfills nothing appears that was not recorded at that absolute time, and nothing goes but what lies before a new start |
| Store.TrimKeepsTimes | engine/src/flyball/record/sqlite.py:818-836 | A trim keeps every reading from the cut on at its time, and moves the start there |
| Store.KeepRangeKeepsTimes | engine/src/flyball/record/sqlite.py:838-882 | A kept range holds exactly what was recorded in it, at its times |
| Store.KeepRangeIff | engine/src/flyball/record/sqlite.py:846-852 | A range is kept exactly when it is not empty, begins no earlier than the session and ends no later than it did; otherwise which refusal is given |
| Store.BackfillKeepsTimes | engine/src/flyball/record/sqlite.py:884-992 | A backfill adds exactly what was recorded in the range at addresses the target declares |
| Store.TrimKeepsSamples | engine/src/flyball/record/sqlite.py:818-836 | A trim keeps exactly the samples from the cut on |
| Store.KeepRangeKeepsSamples | engine/src/flyball/record/sqlite.py:895-944 | A kept range has a sample for each of the source's in it, under its own key and at its own time, and no other |
| Store.BackfillKeepsSamples | engine/src/flyball/record/sqlite.py:884-944 | A backfill adds one for each of the source's in range whose device the target has, and no other |
| Store.CountsGoBelow | engine/src/flyball/record/sqlite.py:928-938 | Backfilled counts are negative and distinct, so disjoint from the writer's |
| Store.OrderIsKept | engine/src/flyball/record/sqlite.py:928-938 | And in the order of the source's |
| Store.BackfillIsSound | engine/src/flyball/record/sqlite.py:928-960 | A backfill keeps the keys and references of both tables |
| Store.SeriesIsTheWindow | engine/src/flyball/record/sqlite.py:149-1099 | A windowed read returns, in time order, one point for each reading in the absolute window and no other: its value, at its time from the start |
| Store.OrderExists | engine/src/flyball/record/sqlite.py:1097-1100 | There is such an order of any rows |
| Store.RerunFinishes | engine/src/flyball/record/sqlite.py:727-752 | A batched deletion cut off and done again ends in the rows one deletion leaves |
| Store.TrimAgainFinishes | engine/src/flyball/record/sqlite.py:818-836 | So does a trim, to the same cut or a later one |
| Store.DeleteBatch | engine/src/flyball/record/sqlite.py:743-750 | One transaction deletes up to a batch of the rows to go, and fewer only if none is left |
| Store.DeleteData | engine/src/flyball/record/sqlite.py:727-752 | The loop over batches, finished or cut off |
| Store.Newest | engine/src/flyball/record/sqlite.py:934-938 | The largest count, or zero |
| Store.SqliteStore.TrimSession | engine/src/flyball/record/sqlite.py:818-836 | A trim in batches, and what is left if it is cut off |
| Store.SqliteStore.Keep | engine/src/flyball/record/sqlite.py:838-882 | A kept range with its errors |
| Store.SqliteStore.Fill | engine/src/flyball/record/sqlite.py:884-893 | A backfill, rolled back if a key is there already, which for a writer's session it never is |
| Recorder.WrittenInOrder | engine/src/flyball/runtime/recorder.py:143-240 | In every interleaving, for each kind of row, written, in flight and buffered is what was accepted, in order, until the store fails |
| Recorder.CloseLeavesNothing | engine/src/flyball/runtime/recorder.py:242-249 | When `close` has returned everything accepted before its last flush is written |
| Recorder.CloseWritesAll | engine/src/flyball/runtime/recorder.py:198-249 | In every run, everything accepted before `close` took the buffers is written by the time it has ended, if the store has not failed |
| Recorder.AcceptsWhatIsGiven | engine/src/flyball/runtime/recorder.py:143-196 | A delivery adds its samples narrowed to what is published, in order, and its ticks and states; an event itself; after a failure nothing is added |
| Recorder.KeptIsNarrowed | engine/src/flyball/runtime/recorder.py:159-164 | The rows kept are exactly those of the samples that carry a published signal, each with just those |
| Recorder.CloseGoesOn | engine/src/flyball/runtime/recorder.py:221-249 | A close that has begun can always go on, each such step bringing its end nearer |
| Recorder.FailureLosesTheFlight | engine/src/flyball/runtime/recorder.py:204-240 | A write that fails loses what was taken and nothing else; it ends the close if it was the close's own |
| Recorder.FailsIff | engine/src/flyball/runtime/recorder.py:221-240 | The recording ends exactly when the store fails a write of the writer thread's own |
| Recorder.DeclaredBeforeWritten | engine/src/flyball/runtime/recorder.py:132-219 | With declaring and recording serialised the store is never given a signal it has not been told of |
| Recorder.AnnouncedIff | engine/src/flyball/runtime/recorder.py:132-163 | Without that, what is recorded is announced exactly when no sample carries a signal shown but not yet queued to be declared |
| Recorder.UnserialisedIsNot | engine/src/flyball/runtime/recorder.py:132-219 | And it happens, from a recorder just opened: the store is given a signal it was never told of |
| Recorder.Recorder.Record | engine/src/flyball/runtime/recorder.py:143-178 | The filter over the samples, and the appends |
| Recorder.Recorder.Event | engine/src/flyball/runtime/recorder.py:180-196 | An event buffered, or dropped after a failure |
| Recorder.Recorder.TakeBuffers | engine/src/flyball/runtime/recorder.py:207-213 | The buffers swapped for empty ones |
| Recorder.Recorder.Fail | engine/src/flyball/runtime/recorder.py:232-237 | A failure noted and the buffers emptied |
| Autotune.RelayNeverFails | engine/src/flyball/autotune/experiments.py:200-255 | For hysteresis not negative and a cycle or more: peaks and troughs alternate, all but the first beyond the band, no failure but the timeout, and a positive period |
| Autotune.EmptyMeanIff | engine/src/flyball/autotune/experiments.py:200-241 | Some run fails on an empty mean exactly when `cycles` is below one |
| Autotune.NoCyclesFails | engine/src/flyball/autotune/experiments.py:200-241 | Such a run, from the first reading, for any config of that kind |
| Autotune.EvaluatesWell | engine/src/flyball/autotune/experiments.py:235-255 | Once there are cycles enough the amplitude clears the dead band and there are periods to average |
| Autotune.ResultIsMeasured | engine/src/flyball/autotune/experiments.py:235-255 | The result comes with the cycles asked for and not before; its amplitude is half of a swing and its period a time between like switches, within the range of those measured |
| Autotune.SteadyOscillation | engine/src/flyball/autotune/experiments.py:241-255 | Of a steady oscillation it is the half swing and the period |
| Autotune.RecordsExtremes | engine/src/flyball/autotune/experiments.py:213-229 | A switch records the lowest reading of the phase it ends, driving up, or the highest, driving down; nothing else is recorded |
| Autotune.FirstDrivesToCentre | engine/src/flyball/autotune/experiments.py:209-212 | The first reading sets the direction: up from below the centre, down otherwise |
| Autotune.TimesOutIff | engine/src/flyball/autotune/experiments.py:208-233 | A step times out exactly when there is a limit, no result yet, and longer than that since the first reading |
| Autotune.RelayTest.Advance | engine/src/flyball/autotune/experiments.py:200-233 | One reading on the experiment's fields |
| Autotune.RelayTest.Close | engine/src/flyball/autotune/experiments.py:235-255 | The closing of the experiment, with each way it may fail |
| Autotune.DequeIsHistory | engine/src/flyball/autotune/fit.py:53-70 | The deque and the whole history agree on whether the reading has settled, values that are not finite included |
| Autotune.HeldIsTheWindow | engine/src/flyball/autotune/fit.py:60-64 | The deque is the history from the latest reading at least a window old |
| Autotune.SteadyState.Push | engine/src/flyball/autotune/fit.py:53-70 | `push` with its loop: settled is what the whole history says |
| Fit.RefiningNeverWorsens | engine/src/flyball/autotune/fit.py:101-130 | The polish returns a fit no worse than the seed nor than any candidate of any pass, its time constant at least a thousandth of the seed's and its dead time not negative |
| Fit.RefiningStaysNear | engine/src/flyball/autotune/fit.py:116-130 | It stays within the seed's time constant of the seed, the boxes halving |
| Fit.Refine | engine/src/flyball/autotune/fit.py:101-130 | The three nested loops over the candidates, keeping the best |
| Fit.ReachesFirst | engine/src/flyball/autotune/fit.py:73-87 | The crossing found is the first; there is none exactly when every later sample is below the target |
| Fit.CrossingBetween | engine/src/flyball/autotune/fit.py:80-85 | From below the target it lies between the two samples, on the line through them |
| Fit.SeedMissing | engine/src/flyball/autotune/fit.py:168-169 | The two points are missing exactly when the upper is: once that is found, so is the lower |
| Fit.NeverTooAbrupt | engine/src/flyball/autotune/fit.py:168-172 | A response read at increasing times, from below the lower point, always gives a seed once it reaches the upper |
| Fit.FitFopdt | engine/src/flyball/autotune/fit.py:133-183 | The fit with each of its errors; what it returns fits no worse than its seed |
| Fit.ShapeIsStepResponse | engine/src/flyball/autotune/fit.py:90-93 | The shape, 0 up to the dead time and `1 - exp(-(t - dead) / tau)` after it, is the step response of the simulated plant: the output moves by `gain` times the change of input times the shape |
| Fit.ShapeIs | engine/src/flyball/autotune/fit.py:90-93 | That is what it is |
| Fit.SseIs | engine/src/flyball/autotune/fit.py:96-98 | The error is the sum of the squared distances: never negative, and zero exactly when every sample is on the shape |
| Fit.NormalisedIs | engine/src/flyball/autotune/fit.py:163-167 | The samples from the step on, in order, timed from it and as parts of the whole change |
| Fit.OwnResponseFits | engine/src/flyball/autotune/fit.py:96-167 | A plant's own response, whatever it starts from, fits it with no error |
| Fit.SeedIsThePlant | engine/src/flyball/autotune/fit.py:168-170 | A response that passes the two points one third of a time constant and a whole one after its dead time is seeded with that plant |
| Fit.GridReaches | engine/src/flyball/autotune/fit.py:117-124 | The grid of a pass goes from one span below its centre to one above, held at the floor and at zero |
| Fit.AlongIs | engine/src/flyball/autotune/fit.py:122-124 | The candidates of an axis are equally far apart, from one end of the box to the other |
| Overlay.LeafReadsBack | engine/src/flyball/runtime/overlay.py:24-39 | A leaf of the overlay, neither null nor a mapping, always reads back |
| Overlay.MissingReadsAsBase | engine/src/flyball/runtime/overlay.py:24-39 | A path that leaves the overlay at a missing key reads as in the base |
| Overlay.NullDeletes | engine/src/flyball/runtime/overlay.py:24-39 | A null deletes exactly where the base has mappings all the way to it |
| Overlay.MappingsMerge | engine/src/flyball/runtime/overlay.py:24-39 | A mapping merges into a mapping and replaces anything else |
| Overlay.MergeLoop | daemon/internal/rigfile/overlay.go:15-34 | The loop over the keys, in any order |
| Overlay.SetIsMerge | engine/src/flyball/runtime/overlay.py:60-84 | Setting a value neither null nor a mapping is merging its one path |
| Overlay.DeleteIsMerge | engine/src/flyball/runtime/overlay.py:60-84 | Deleting is merging a null exactly where the document reaches; elsewhere nothing is set |
| Overlay.SetReplaces | daemon/internal/rigfile/overlay.go:57-91 | What was set is what reads back, a mapping included |
| Overlay.SetNothingElse | engine/src/flyball/runtime/overlay.py:60-84 | What is set at one path is not seen at another |
| Overlay.CycleIsReal | engine/src/flyball/runtime/overlay.py:87-112 | A cycle is reported only where files extend one another back to one being loaded; a file extended twice over is none |
| Overlay.LayerIsWhole | engine/src/flyball/runtime/overlay.py:87-112 | And none is missed: of a file that has loaded, every file reached through `extends` is there, a mapping, and not among those it was reached through |
| Overlay.LayerFilesDistinct | daemon/internal/rigfile/overlay.go:96-163 | No file is listed twice nor while it is being loaded, so Python's append and Go's agree |
| Overlay.OwnKeysWin | engine/src/flyball/runtime/overlay.py:104-112 | `extends` is stripped throughout, and a file's own keys win over its bases' |
| Overlay.BasesShowThrough | engine/src/flyball/runtime/overlay.py:104-112 | What a file's own keys leave open is read from its bases |
| Overlay.LaterBaseWins | engine/src/flyball/runtime/overlay.py:104-109 | Of the bases the last with a leaf at a path is what the path reads, where those after it leave it open |
| Overlay.ExtendsIs | engine/src/flyball/runtime/overlay.py:101-103 | `extends` must be a list of names, kept in order; a file without it has no base |
| Overlay.ReachedIsListed | engine/src/flyball/runtime/overlay.py:104-112 | Every file reached through `extends` is listed as having contributed |
| Overlay.ListedIsReached | engine/src/flyball/runtime/overlay.py:104-112 | And no other |
| Overlay.ResolveLayers | engine/src/flyball/runtime/overlay.py:115-141 | Files in order, then every `--set` |
| Overlay.LaterFileWins | engine/src/flyball/runtime/overlay.py:132-137 | A later file overlays an earlier one: the last with a leaf at a path is what it reads, where those after it leave it open |
| Overlay.LastSettingWins | engine/src/flyball/runtime/overlay.py:138-140 | The last value set at a path is what it reads |
| Overlay.FilesListedOnce | engine/src/flyball/runtime/overlay.py:132-137 | Every file that contributed is listed once |
| Crc.OneByteIsCaught | extensions/chips/src/flyball_chips/_sensirion.py:22-33 | Any change inside one byte changes the checksum, at any length and from any initial value |
| Crc.BurstIsCaught | extensions/chips/src/flyball_chips/_sensirion.py:22-33 | So does any burst of up to eight bits across two bytes |
| Crc.CrcIsRemainder | extensions/chips/src/flyball_chips/_sensirion.py:22-33 | The checksum is the remainder of the bytes as a polynomial, the initial value added, by x^8 + x^5 + x^4 + 1 |
| Crc.DatasheetValues | extensions/chips/src/flyball_chips/_sensirion.py:22-33 | 0x92 for 0xBEEF from 0xFF, and 0x7C for 0x683A from 0x00 |
| Crc.WordIsBigEndian | extensions/chips/src/flyball_chips/_sensirion.py:54-57 | A word is 256 times its first byte and its second |
| Crc.OnlyEncodingsDecode | extensions/chips/src/flyball_chips/_sensirion.py:36-57 | A frame decodes to some words exactly when it is their encoding |
| Crc.Compute | extensions/chips/src/flyball_chips/_sensirion.py:22-33 | The two loops of the checksum |
| Crc.Check | extensions/chips/src/flyball_chips/_sensirion.py:36-51 | The loop over the words, with each error |
| Websocket.ReadsServerFrames | daemon/internal/wsclient/wsclient.go:144-186 | A server's frame is read back whatever its length form, nothing past it taken; past the cap it is refused |
| Websocket.ServerHears | daemon/internal/wsclient/wsclient.go:190-219 | A server reading as section 5.3 of RFC 6455 says gets the payload back, whatever the mask |
| Websocket.ReadRefuses | daemon/internal/wsclient/wsclient.go:144-159 | A frame is refused for a reserved bit, or the mask bit, exactly where one is set |
| Websocket.MaskedBytes | daemon/internal/wsclient/wsclient.go:190-196 | Each byte written is the exclusive or of the payload's and the mask's, on machine bytes |
| Websocket.HelloExamples | daemon/internal/wsclient/wsclient.go:144-219 | The frames of section 5.7 of RFC 6455, read and written |
| Websocket.LengthExamples | daemon/internal/wsclient/wsclient.go:198-214 | The three forms of a length: 5, 256 and 65536 |
| Websocket.NumberOnward | daemon/internal/wsclient/wsclient.go:168-174 | The most significant byte of a length comes first |
| Websocket.Reassembles | daemon/internal/wsclient/wsclient.go:112-142 | However a message is fragmented and whatever control frames come between, its payload is read whole and each ping answered in order |
| Websocket.BinaryIsSkippedIff | daemon/internal/wsclient/wsclient.go:112-142 | A binary message is passed over exactly when it is not fragmented; of one that is, all but the first fragment is returned as text |
| Websocket.BinaryComesBack | daemon/internal/wsclient/wsclient.go:112-142 | Two frames that show it |
| Websocket.WriteFrame | daemon/internal/wsclient/wsclient.go:190-219 | The masking loop and the three length forms |
| Websocket.Conn.NextMessage | daemon/internal/wsclient/wsclient.go:115-142 | The reading loop and its call to itself |

## Left out

- Rounding of floats, Gaussian noise (`Noisy`) and multi-port plants (`MultiPlant`).
- Plant.Advancer.Advance: holds its plant as a value; the object shared with readers and drivers, and the lock around the poll, are not modelled.
- Plant.Fopdt.constructor: requires a positive time constant and a dead time of zero or more, where the code raises on the others and builds nothing.
- Plant.StepSplits: for steps of zero or more, as the advancer's are; a step back in time is not covered.
- Clock.SteppedClock.Advance: requires every period to be at least a nanosecond, since otherwise the loop may not return (Clock.LoopEndsIff).
- Setpoint.ProfileRun.Begin: holds its segments' generators as values, since the language has no dispatch over objects here.
- Supervisor: log files and their rotation, the health check itself and the arguments of the command; what the operating system does is a parameter.
- Supervisor.RestartIsHonoured: when the supervisor's next step comes is not modelled; that it can be taken is `Supervisor.RestartIsServed`, and when a killed process ends is the operating system's.
- Programmer: events, the registration of waits by name beyond its failing, and the joining of threads.
- Programmer.UnwindsAfterAbort: a command that does not return is outside the model.
- Rig: clamping, rate limits and ownership of a demand, the write states a commit fills in, and the telemetry cells; a commit's pushes stand for its readbacks.
- Rig.Rig.Land: which nodes above a signal are heard is a function of the sample; the walk up the tree is not modelled.
- Rig.RaisingLawIsContained: is about one delivery; what the commits it did without would have pushed is missing from those that follow.
- Rig.Rig.Commit: the write states a commit fills in are not modelled, but for the samples it pushes.
- Laws: the gains `IMC` computes from its model (it is a `PID` once they are), the state models and catalogues.
- Controller: callbacks on a tick, the views for the wire, and the refusal of a NaN or infinite aim, which no real is.
- Store: write states, ticks, events and spans, which are copied by the same offsets; downsampled reads; SQL, transactions and error classification.
- Store.SqliteStore.TrimSession: models the batches over samples; readings go with their samples.
- Store.SqliteStore.Keep: copies samples and readings; the other tables are copied by the same offsets.
- Store.SqliteStore.Fill: adds samples and readings; the other tables are filled by the same offsets.
- Recorder.Recorder.Record: how a delivery becomes rows, the order of declarations within one flush, and a sample that carries nothing, which the rig refuses.
- Recorder.CloseLeavesNothing: what another thread records after the last flush is not written, as in the code.
- Fit.FitFopdt: returns the mean squared error, not its root in reading units; the step experiment that collects the response is not modelled.
- Autotune.RelayNeverFails: the ultimate gain itself, which divides by pi and takes a root; that what is under the root is positive is proved.
- Overlay: parsing documents and `--set` expressions; following links when a path is resolved is a parameter, which Python does and Go does not.
- Crc: a value of more than sixteen bits, of which the source encodes the low sixteen.
- Websocket: the handshake, and the network's errors but for input that ends early.
- HTTP routes, proxying, the command line, catalogues, drivers, dashboards and the user interface: plumbing, or hardware.
- `foundation/resource.py` and `runtime/writer.py`: neither keeps an invariant to prove across its two-step operations.
