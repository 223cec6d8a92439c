# Formal model of the humanoid motion server

A Dafny project that models the control core of the motion server and proves properties
of it over every input, every run and every interleaving of its critical sections.

The command pipeline turns Move and Servo requests into joint commands. An arbiter holds
one claim per session and lets those win that no higher-ranked winner shares a joint
with. A control tick runs the winners through the closed SDK, checks what the final RTC
returns against the joint limits, and returns commands with one-shot publication permits
that carry the deadline of the inputs they were computed from. Around the pipeline stand
the ownership handover between control sources, the exclusion of Servo input by Moves,
timestamp tracking, the public joint mapping, pose execution and the simulated plant.

| module | models |
|---|---|
| Arbitration, ControlArbiters, ArbiterRuns | what winning means, the arbiter class, whole runs of it |
| LimitRecovery | feedback checks, the limit check of RTC output, rebasing |
| GoalMonitors | closed-loop completion of Moves |
| SdkBackend | the bookkeeping of the SDK adapter; what the SDK answers is arbitrary |
| TurnModel | what one winner's turn is given and what it can fail by, in measured values |
| PipelineModel, TickModel | the pipeline's state, its invariant, and what each change and each tick keeps |
| CommandPipelines | the pipeline class, method by method |
| PipelineRuns | progress of healthy winners; publication safety, session accounting and limit recovery over whole runs |
| OwnershipPermit | the permit receiver against the control tick, every interleaving |
| MoveReservations, InputTimestamps | Move reservations, the Servo queue and its timestamps |
| JointMapping | the affine mapping between public and model joints |
| PoseExecution, PoseCover | executing and composing named poses |
| KinematicPlants, MimicExpansion | the simulated plant and its mimic joints |

Conventions. Time is an integer number of nanoseconds on one clock; the steady clock may
advance between any two readings. Doubles are reals, and non-finite values only a flag
the code rejects. Every answer of the SDK, of an action server and of forward kinematics
is an arbitrary value, so the limit and publication properties hold against any of them.
Each locked method of the C++ code is one atomic step of a class; the fields its methods
update are fields of that class. `Valid` is the invariant every public method keeps:
session ids equal arbiter claims with equal joints and receipt times, the backend's live
sessions are the active ones and those marked started, active sessions share no joint,
a running MoveJ is watched and any other Move only once its path was reached, permits
name issued commands, and every session ever created is live or has exactly one terminal
event.

Sessions and events carry a `serial`, the number of the session in the order of creation;
nothing in the code depends on it. Ghost fields keep what the theorems over runs speak
of: every answer of the SDK, the request behind each serial, every backend start with what the SDK reported of it,
every command returned with the inputs and outputs behind it, every publication, and what
each success rested on.

Where the code does not do what its names or documentation suggest:

- "A Move never waits for another claim" holds for exactly the setups without a trap
  (`ArbiterRuns.MovesNeverWaitExactlyWithoutTraps`); the shipped groups have none
  (`ArbiterRuns.ShippedGroupsHaveNoTrap`).
- A batch is assumed to list each command once. It publishes no joint twice exactly when
  no command that is held and in time is listed twice
  (`PipelineRuns.BatchIsDisjointExactly`); one listed twice is published twice
  (`PipelineRuns.RepeatedCommandIsApprovedTwice`).
- An expired permission is revived by repeating the same grant when no control tick has
  seen the expiry (`OwnershipPermit.RepeatRestoresExactlyUnwithdrawn`,
  `OwnershipPermit.UnseenExpiryIsRevived`).
- Input the tick has taken from the queue escapes a later reservation
  (`MoveReservations.TakenEscapesExactly`), and with the public mapping unstamped input
  is always dropped (`MoveReservations.UnstampedIsDropped`).
- Freshness goes back when a stamped input follows an unstamped one it is older than
  (`InputTimestamps.FreshnessGoesBackExactly`).
- An empty request is refused as a pose although it has an exact cover, and channels that
  share a name resolve to the last of them (`PoseCover.ResolvesBackExactly`).
- A rejected plant command holds the plant when the ROS clock went back
  (`KinematicPlants.RejectedCommandKeepsTargetsExactly`,
  `KinematicPlants.RejectedCommandHoldsPlant`).
- A mimic that is also a base position can make the expansion depend on iteration order:
  it does exactly when another mimic of the first round follows it and would see it change
  (`MimicExpansion.OrderMattersExactly`, `MimicExpansion.OverlapDependsOnOrder`).

## Model

| member | source | states |
|---|---|---|
| Arbitration.WinnerSetExists | src/arbitration/control_arbiter.cpp:72-109 | for any ranked claims some set of winners satisfies the defining equation: a claim wins exactly when no higher-ranked winner shares a joint with it |
| Arbitration.WinnerSetUnique | src/arbitration/control_arbiter.cpp:72-109 | there is only one such set, so the winners do not depend on the order the claims are read in |
| Arbitration.WinnersDisjoint | src/arbitration/control_arbiter.cpp:96-107 | no two winners share a joint |
| Arbitration.LosersAreIrrelevant | src/arbitration/control_arbiter.cpp:111-129 | removing claims that do not win leaves the winners unchanged |
| Arbitration.AddingALoser | src/arbitration/control_arbiter.cpp:157-187 | adding a claim that does not win leaves the winners unchanged |
| ControlArbiters.StepsKeepInv | src/arbitration/control_arbiter.cpp:157-227 | submitting, updating, evaluating and releasing keep every held claim validated, carrying its endpoint's priority and lease, with distinct receive numbers |
| ControlArbiters.EvictionKeepsWinners | src/arbitration/control_arbiter.cpp:111-129 | the eviction of beaten Moves leaves exactly the winners it was computed from |
| ControlArbiters.RefusedMoveEvictsNobody | src/arbitration/control_arbiter.cpp:166-186 | a refused Move leaves the claims as they were minus expired Servos, the same winners, and evicts nobody |
| ControlArbiters.ControlArbiter.RegisterEndpoint | src/arbitration/control_arbiter.cpp:30-44 | an endpoint is registered exactly when it is named, leased if a Servo, and new |
| ControlArbiters.ControlArbiter.ComputeWinners | src/arbitration/control_arbiter.cpp:72-109 | the unique winner set of the unexpired claims in rank order: a claim wins exactly when its lease is not over and no winner that shares a joint has a higher priority, or the same and was received later, or both the same and has the later receive number |
| ControlArbiters.ControlArbiter.Greedy | src/arbitration/control_arbiter.cpp:92-107 | the scan of ranked claims against those already selected yields the winner set of the defining equation |
| ControlArbiters.ControlArbiter.RemovePreemptedMoves | src/arbitration/control_arbiter.cpp:111-129 | exactly the Moves that won before and do not win now lose their claims |
| ControlArbiters.ControlArbiter.RemoveExpiredServos | src/arbitration/control_arbiter.cpp:131-144 | exactly the claims of a Servo received a lease ago or earlier are removed, and all of them are reported |
| ControlArbiters.ControlArbiter.SubmitMoveClaim | src/arbitration/control_arbiter.cpp:157-187 | a Move is admitted exactly when its claim wins; the new claims, the preempted and the expired are those of the winner-set specification |
| ControlArbiters.ControlArbiter.UpdateServoClaim | src/arbitration/control_arbiter.cpp:189-216 | a current Servo target always holds its claim and evicts exactly the Moves that lose by it; a late, early or older one changes nothing |
| ControlArbiters.ControlArbiter.EvaluateClaims | src/arbitration/control_arbiter.cpp:218-222 | exactly the claims of a Servo received a lease ago or earlier go and are reported; the winners are those of what is left, told in priorities and receipt times |
| ControlArbiters.ControlArbiter.ReleaseClaim | src/arbitration/control_arbiter.cpp:224-227 | only the named claim goes |
| ArbiterRuns.NoTrapRuns | src/arbitration/control_arbiter.cpp:72-227 | in a setup without a trap every held Move wins after every run of calls, whatever its Move leases |
| ArbiterRuns.TrapBreaksARun | src/arbitration/control_arbiter.cpp:157-227 | in a setup with a trap (a Move, a Servo meeting it, a third endpoint meeting only the Servo, priorities in that order) a four-call run leaves an admitted Move waiting |
| ArbiterRuns.MovesNeverWaitExactlyWithoutTraps | src/arbitration/control_arbiter.cpp:72-227 | for every setup: held Moves win after every admissible run if and only if no three endpoints form a trap |
| ArbiterRuns.ContainmentLeavesNoTrap | src/arbitration/control_arbiter.cpp:72-227 | a setup where every Move meeting a Servo's joints takes all of them has no trap |
| ArbiterRuns.ShippedGroupsHaveNoTrap | config/motion_control.yaml:36-40 | channels over the shipped groups, with Servos on single arms as shipped, have no trap, whatever their priorities |
| LimitRecovery.ValidateFeedback | src/motion/command_pipeline.cpp:493-535 | the exact outcome of each check, in measured values: malformed, stale, incomplete, or beyond the limits by more than the recovery margin |
| LimitRecovery.SelectFeedback | src/motion/command_pipeline.cpp:665-681 | the measured values of exactly the named joints, in their order, wherever the feedback lists them |
| LimitRecovery.ValidateFinalCommand | src/motion/command_pipeline.cpp:546-612 | accepted exactly when it is of the group's shape and every joint is inside its roundoff band or, in an output that passed the RTC, beyond one limit where the previous output and the measurement are beyond the same limit, at least as far out, and not moving outward; said in positions, velocities and limits, for both limits |
| LimitRecovery.LimitRecoverySeed | src/motion/command_pipeline.cpp:614-663 | a seed exists exactly when the session is recovering, some joint's measurement has moved inward ahead of the output within one step and the margin, and every other joint is kept; it holds the measured values of the first kind and the last ones of the others |
| LimitRecovery.FinalCodeMirrors | src/motion/command_pipeline.cpp:546-612 | negating positions, velocities and limits leaves the verdict on a final command unchanged, so both limits are treated alike |
| LimitRecovery.RebaseMirrors | src/motion/command_pipeline.cpp:632-661 | the same for what a rebase does with a joint |
| LimitRecovery.JudgeJoint | src/motion/command_pipeline.cpp:632-661 | what a rebase does with one joint, in its output, last, measured and limit values |
| LimitRecovery.AcceptedDirectly | src/motion/command_pipeline.cpp:563-594 | an output accepted directly moves no joint further out than the previous output |
| LimitRecovery.AcceptedAfterRebase | src/motion/command_pipeline.cpp:632-661 | neither does one accepted after a rebase, although it was checked against the rebased positions |
| LimitRecovery.OvershootNeverGrows | src/motion/command_pipeline.cpp:546-663 | over all outputs of a session no joint's overshoot beyond the band grows, and a joint once inside stays inside |
| LimitRecovery.OutputsStayWithinWidenedLimits | src/motion/command_pipeline.cpp:546-663 | every output lies in the limits widened by the larger of recovery margin and roundoff, whatever the RTC returns |
| GoalMonitors.ObservationRefinesTrace | src/motion/goal_monitor.cpp:94-179 | each observation is judged by the history it completes: reached exactly when the longest in-tolerance suffix spans the stable duration |
| GoalMonitors.RunTracks | src/motion/goal_monitor.cpp:94-179 | the same for every observation of a whole run before the timeout |
| GoalMonitors.TimeoutIsAbsorbing | src/motion/goal_monitor.cpp:104-108 | once timed out, every later observation is timed out |
| GoalMonitors.GoalMonitor.Begin | src/motion/goal_monitor.cpp:56-92 | a goal is monitored exactly when its configuration, names, positions and pose are valid; it restarts the history |
| GoalMonitors.GoalMonitor.Judge | src/motion/goal_monitor.cpp:109-166 | unusable feedback, a missing joint or pose is invalid; within tolerance exactly when every goal joint's measured position is within the position tolerance of its goal, its measured speed within the velocity tolerance, and a cartesian goal's pose within |
| GoalMonitors.VerdictMeasures | src/motion/goal_monitor.cpp:109-166 | what each verdict says of the measured positions and speeds and of the pose |
| GoalMonitors.GoalMonitor.Observe | src/motion/goal_monitor.cpp:94-179 | in measured values: for valid feedback in time the stretch goes on exactly when every goal joint is measured close and slow enough and a cartesian goal's pose is within; reached exactly when the stretch that includes this observation spans the stable duration |
| GoalMonitors.GoalMonitor.Erase | src/motion/goal_monitor.cpp:181-184 | only the named goal goes |
| SdkBackend.SdkMotionBackend.StartSession | src/motion/sdk_motion_backend.cpp:187-307 | a session starts only under a new, non-empty id and a positive period, with nothing reported reached yet; a refusal changes nothing |
| SdkBackend.SdkMotionBackend.TickSession | src/motion/sdk_motion_backend.cpp:309-389 | a path counts as reached exactly in a tick whose report completes it: for a MoveP once every waypoint was reported reached, in order, otherwise once the SDK reported it; nothing but the session itself changes |
| SdkBackend.SdkMotionBackend.StopSession | src/motion/sdk_motion_backend.cpp:391-407 | stopping removes the session, if there is one, and is idempotent |
| TurnModel.DeadlineIsEarliest | src/motion/command_pipeline.cpp:854-863 | a reading is before a command's deadline exactly when it is less than the feedback age after the feedback, within the larger of the two periods of the cycle's start and, for a Servo, less than a lease after its target |
| TurnModel.GoodAnswers | src/motion/command_pipeline.cpp:1012-1078 | what a good answer of the SDK is in the values it carries: a code of OK and, for a candidate or an output, the group's joints inside their roundoff bands, marked as RTC output exactly if it is one |
| TurnModel.MeasuredWhileFresh | src/motion/command_pipeline.cpp:493-535 | feedback with every joint of the group within the recovery margin of its limits is usable until it is too old |
| TurnModel.NothingFails | src/motion/command_pipeline.cpp:919-1141 | usable feedback, readings before the deadline and good answers of the SDK leave nothing a turn could have failed by |
| PipelineModel.TerminateKeeps | src/motion/command_pipeline.cpp:750-781 | ending a session anywhere keeps sessions, claims, backend, monitor, permits and event accounting in agreement; a success may only be reported of a watched goal that has settled, and is recorded with its observations and the start whose path was reached |
| PipelineModel.ActivateKeeps | src/motion/command_pipeline.cpp:981-1005 | activating a started session, a MoveJ with its goal watched, keeps the active sessions joint-disjoint and starts its output history at the measured joints |
| PipelineModel.OutputKeeps | src/motion/command_pipeline.cpp:1077-1088 | an accepted output continues the outputs since the session's backend start |
| PipelineModel.EmittedKeeps | src/motion/command_pipeline.cpp:1075-1088 | an output returned as a command and remembered as the last one extends every command returned along the same start before |
| PipelineModel.HeardKeeps | src/motion/sdk_motion_backend.cpp:344-380 | one more report of the SDK keeps every reached path reached |
| PipelineModel.WatchPathKeeps | src/motion/command_pipeline.cpp:1098-1109 | the goal of a MoveL or MoveP may be watched once the path of its own running start was reported reached |
| PipelineModel.AppendKeeps | src/motion/command_pipeline.cpp:876-884 | a returned command takes the next token and a permit on each of its joints, every permit stays an issued command's, and commands along one start extend each other |
| PipelineModel.PublishKeeps | src/motion/command_pipeline.cpp:432-461 | publishing keeps the tokens published on each joint strictly increasing from call to call and below the joint's permit, and whatever was published current at that time |
| PipelineModel.CreateKeeps | src/motion/command_pipeline.cpp:330-331 | admission keeps every session accounted for and agreeing with its claim |
| PipelineModel.RetargetKeeps | src/motion/command_pipeline.cpp:375-377 | a newer Servo target keeps the session's claim, activity and outputs in agreement |
| PipelineModel.UnexpiredIsFresh | src/motion/command_pipeline.cpp:854-863 | a command before its deadline was computed from feedback younger than the maximum age, in a tick younger than the maximum period, and for a Servo from a target younger than its lease |
| PipelineModel.ServoClaimAccepted | src/motion/command_pipeline.cpp:352-371 | a target that passes the pipeline's own checks is never refused by the arbiter |
| PipelineModel.LosersAreOutranked | src/arbitration/control_arbiter.cpp:157-187 | a new Move is refused by the arbiter only if a live session that shares a joint has a higher priority, or the same and was submitted later |
| CommandPipelines.CommandPipeline.constructor | src/motion/command_pipeline.cpp:145-176 | an empty pipeline satisfies the invariant |
| CommandPipelines.CommandPipeline.RegisterEndpoint | src/motion/command_pipeline.cpp:216-231 | an endpoint is registered exactly when it is named and new, its group is known and, if a Servo's, its lease is positive |
| CommandPipelines.CommandPipeline.ValidateRequest | src/motion/command_pipeline.cpp:233-294 | the exact refusal or the new session of a request |
| CommandPipelines.CommandPipeline.TerminateSession | src/motion/command_pipeline.cpp:750-781 | permits, backend, activity, claim, goal and session go together and one terminal event is reported |
| CommandPipelines.CommandPipeline.RevokeOutputs | src/motion/command_pipeline.cpp:403-408 | exactly the permits of the named joints go |
| CommandPipelines.CommandPipeline.SubmitMove | src/motion/command_pipeline.cpp:296-333 | refused without the permission or with another generation than the one in force, and each refusal changes nothing; a proper Move no live session outranks on a shared joint is admitted; an admitted Move ends the Moves it evicted, reported as preempted, and the Servos whose lease is over, reported as stale, creates its session and revokes the outputs of its joints |
| CommandPipelines.CommandPipeline.UpdateServo | src/motion/command_pipeline.cpp:335-394 | refused without the permission or with another generation, and each refusal changes nothing; accepted exactly when permitted, proper, newer than the last target and within its lease; then it replaces the session's target in place or acquires the endpoint anew, revokes outputs if it wins, and whoever it ends is reported as a preempted Move or a stale Servo |
| CommandPipelines.CommandPipeline.ValidatePublication | src/motion/command_pipeline.cpp:410-430 | approved exactly when permitted, with every one of its joints carrying a permit of its session and token, and before its deadline; an expired one ends its session |
| CommandPipelines.CommandPipeline.PublishCommand | src/motion/command_pipeline.cpp:432-443 | published exactly when approved at that instant, when its inputs are current; its permits are used up |
| CommandPipelines.CommandPipeline.PublishCommands | src/motion/command_pipeline.cpp:445-461 | each command is screened in turn and those approved are published together, all with current inputs |
| CommandPipelines.CommandPipeline.SetOutputPermit | src/motion/command_pipeline.cpp:463-476 | revoking the permission or changing its generation ends every session and every permit; otherwise nothing changes |
| CommandPipelines.CommandPipeline.Cancel | src/motion/command_pipeline.cpp:478-491 | afterwards the session is gone and no permit names it |
| CommandPipelines.CommandPipeline.ControlledStop | src/motion/command_pipeline.cpp:783-809 | asks the final RTC to stop where the joints were measured; what it returns is the RTC's answer, passed and within every roundoff band, with the deadline of its inputs, and it returns nothing only if some answer was not good |
| CommandPipelines.CommandPipeline.AppendCommand | src/motion/command_pipeline.cpp:876-884 | the command carries its session, the earliest of the feedback, cycle and lease deadlines, and a fresh token permitted on exactly its joints |
| CommandPipelines.CommandPipeline.CheckTime | src/motion/command_pipeline.cpp:864-875 | exactly past its deadline the session ends as timed out, otherwise nothing changes |
| CommandPipelines.CommandPipeline.StopAndAbort | src/motion/command_pipeline.cpp:885-893 | the session ends as aborted with the given code after at most one stop command, which stays publishable; only a failed Servo is told to wait before its retry |
| CommandPipelines.CommandPipeline.StopHere | src/motion/command_pipeline.cpp:885-893 | a session stopped at an answer of the SDK ends as aborted for that answer with its code; only a Servo is told to wait before its retry |
| CommandPipelines.CommandPipeline.EnsureStarted | src/motion/command_pipeline.cpp:954-1006 | a winner that was running is left as it is; any other has one new backend start, rests at its measured joints and recovers exactly if one is beyond its limits, with the goal of a MoveJ watched afresh and any other goal as it was, or has ended with one event |
| CommandPipelines.CommandPipeline.ActivateJoints | src/motion/command_pipeline.cpp:981-1005 | a MoveJ goes on with the goal it asked for watched from an empty history; if the monitor refuses the goal the session has ended |
| CommandPipelines.CommandPipeline.Pursue | src/motion/command_pipeline.cpp:1008-1030 | a candidate goes on exactly when the SDK gave it in time, not marked as RTC output and strictly within the limits; otherwise the session ends for the first answer that stopped it or for the time, and with a stop; the path counts as reached exactly when this tick's report completed it |
| CommandPipelines.CommandPipeline.Settle | src/motion/command_pipeline.cpp:1046-1066 | an output is accepted directly or, only in a recovery where no joint refuses and some joint asks for it, after one rebase against the rebased positions; the last of the RTC's answers decides, and unless it violates the limits its own verdict stands |
| CommandPipelines.CommandPipeline.FinalOutput | src/motion/command_pipeline.cpp:1033-1077 | what goes on is the answer of the final RTC to the candidate that decided, passed it and follows the session's last output; everything else ends the session with the code of the answer or check that failed |
| CommandPipelines.CommandPipeline.Emit | src/motion/command_pipeline.cpp:1075-1093 | one command more, which carries the output and is remembered as the session's last one; a recovery it ends is reported; the retry wait of the endpoint is forgotten |
| CommandPipelines.CommandPipeline.MonitorPath | src/motion/command_pipeline.cpp:1098-1109 | once its path is reached the session's goal is the accepted candidate, watched from an empty history: the monitor never refuses it |
| CommandPipelines.CommandPipeline.ObserveGoal | src/motion/command_pipeline.cpp:1128-1131 | late, unusable, reached or running exactly by the goal and the whole history of its observations, to which this one is added unless it is late |
| CommandPipelines.CommandPipeline.JudgeProgress | src/motion/command_pipeline.cpp:1128-1140 | by that outcome the session succeeds keeping its last command, is aborted with the matching code after a stop in its place, or goes on |
| CommandPipelines.CommandPipeline.MonitorProgress | src/motion/command_pipeline.cpp:1094-1140 | for every kind of Move: a goal already watched, a MoveJ's and one whose path was just reached are judged, by the pose of the measured joints unless a MoveJ's; only a Servo, or a Move that is not watched and whose path is not reached, goes on unjudged |
| CommandPipelines.CommandPipeline.MustWait | src/motion/command_pipeline.cpp:935-940 | a failed Servo waits exactly until its retry time |
| CommandPipelines.CommandPipeline.ProcessWinner | src/motion/command_pipeline.cpp:919-1141 | what a winner's turn made of its session and its goal: failed for a reason given in feedback, times or the SDK's answers, with the code of the first answer or check that was not OK; judged by its goal and observations; going on with one command that carries the deciding answer of the final RTC; or a Servo still waiting for its retry time |
| CommandPipelines.CommandPipeline.ExpireServos | src/motion/command_pipeline.cpp:832-837 | exactly the sessions of expired claims end, each reported as stale; the winners are those of the unexpired claims |
| CommandPipelines.CommandPipeline.StopPaused | src/motion/command_pipeline.cpp:838-853 | after too long a pause nothing is active and exactly the active Moves have ended, each reported as timed out |
| CommandPipelines.CommandPipeline.StopLosers | src/motion/command_pipeline.cpp:898-916 | exactly the winners stay active and no session ends |
| CommandPipelines.CommandPipeline.Recheck | src/motion/command_pipeline.cpp:1143-1154 | exactly the commands past their deadline are taken back, and the sessions of all of them have ended |
| CommandPipelines.CommandPipeline.Tick | src/motion/command_pipeline.cpp:811-1159 | every returned command belongs to a winner of this tick, holds fresh permits, carries the deadline of its inputs and is before it, and no two share a joint; every winner has its turn, and each turn's end follows from the feedback, the times and what the SDK answered in it; every live Servo's target was within its lease when the tick began; who is lost without a turn is a Servo whose lease was over, reported as stale, or a Move that ran before too long a pause, reported as timed out, and after such a pause no such Move goes on; a Move that goes on has not reached its goal; events are handed over exactly once |
| TickModel.FollowingIsPublishable | src/motion/command_pipeline.cpp:1046-1078 | an accepted output lies in the widened limits because all outputs since the backend start do |
| TickModel.EmittedProduces | src/motion/command_pipeline.cpp:1075-1088 | the returned command carries the output, which becomes the session's last one and the end of the outputs of its start |
| TickModel.WinnersOfSessions | src/motion/command_pipeline.cpp:832-837 | the winners are live sessions and share no joint |
| TickModel.CommandSurvives | src/motion/command_pipeline.cpp:919-1141 | a command returned earlier in the tick stays publishable through the turns of the later winners |
| TickModel.TurnTaken | src/motion/command_pipeline.cpp:919-1141 | each winner's turn adds at most its own command and touches no other session |
| TickModel.ConcludedIsWatched | src/motion/command_pipeline.cpp:1098-1140 | a Move that goes on after its turn is not past its timeout; a MoveJ is watched, and a watched goal was observed in this turn and has not settled |
| TickModel.DropKeepsTicked | src/motion/command_pipeline.cpp:1146-1153 | taking back one expired command leaves all the others publishable |
| TickModel.TickEnds | src/motion/command_pipeline.cpp:811-1159 | what the tick hands over, seen from the state it began in: whose every command is, what it carries, who may be lost, and what is known of the goals of those that go on |
| TickModel.ServosAreCurrent | src/motion/command_pipeline.cpp:832-837 | after a tick every live Servo's last target was within its lease when the tick began |
| TickModel.LostWithoutTurn | src/motion/command_pipeline.cpp:832-853 | whoever a tick loses without a turn is a Servo whose lease was over or, after a pause, a running Move |
| TickModel.MoveDisplaces | src/motion/command_pipeline.cpp:296-329 | a submitted Move ends only Servos whose lease is over and Moves, each reported with its code |
| TickModel.ServoDisplaces | src/motion/command_pipeline.cpp:371-392 | so does a Servo target |
| TickModel.TurnsFinally | src/motion/command_pipeline.cpp:919-1159 | what each winner's turn came to once the tick is over: the failures are among the events handed over, the commands among those returned unless they came too late |
| PipelineRuns.Drive | src/motion/command_pipeline.cpp:145-1159 | the states between arbitrary calls of a new pipeline form a history, so what is proved of histories holds of every run; no call creates a session without the permission or with another generation than the one in force |
| PipelineRuns.SilencedForever | src/motion/command_pipeline.cpp:396-461 | a command returned earlier that has lost a permit is never publishable again in the run |
| PipelineRuns.EndedSessionIsSilenced | src/motion/command_pipeline.cpp:750-762 | nothing a cancelled, preempted or expired session computed is published afterwards |
| PipelineRuns.AdmittedMoveSilences | src/motion/command_pipeline.cpp:320-332 | after a Move is admitted no earlier command on its joints, and none of a session it evicted, is ever published |
| PipelineRuns.WinningServoSilences | src/motion/command_pipeline.cpp:371-392 | the same after a winning Servo target |
| PipelineRuns.ClearedPermitsSilence | src/motion/command_pipeline.cpp:463-476 | after the permission or its generation changed nothing computed before is published |
| PipelineRuns.PublishedTokensIncrease | src/motion/command_pipeline.cpp:432-461 | over a run the tokens published on each joint strictly increase, except that one call may publish a joint again with the same token of the same session |
| PipelineRuns.PublishedWhileCurrent | src/motion/command_pipeline.cpp:410-461 | whatever a tick returned was published while its feedback, its cycle and, for a Servo's request, its target were current |
| PipelineRuns.ScreenedIsPicked | src/motion/command_pipeline.cpp:445-461 | a batch publishes, in its order, exactly the commands that were held before the call and come in time, up to the first of their session that comes too late |
| PipelineRuns.BatchIsDisjointExactly | src/motion/command_pipeline.cpp:445-461 | of commands that ticks returned a batch publishes no joint twice if and only if none of them is approvable at two places of the batch |
| PipelineRuns.RepeatedCommandIsApprovedTwice | src/motion/command_pipeline.cpp:445-461 | a command listed twice in a batch is published twice: the tokens must be distinct |
| PipelineRuns.SessionsAreAccountedFor | src/motion/command_pipeline.cpp:750-781 | sessions created equal live sessions plus terminal events delivered or pending |
| PipelineRuns.EndedNeverResumes | src/motion/command_pipeline.cpp:740-781 | a session that ended is never live again, and its end was reported |
| PipelineRuns.EventsEndOnce | src/motion/command_pipeline.cpp:811-1159 | in the delivered events nothing about a session follows its single terminal event |
| PipelineRuns.TickReportsEnds | src/motion/command_pipeline.cpp:811-1159 | a tick hands over the terminal event of every session it lost, and loses only winners, expired Servos and after a pause active Moves |
| PipelineRuns.HealthyWinnersGoOn | src/motion/command_pipeline.cpp:919-1141 | with usable feedback, in time, not waiting and not overdue, and with good answers of the SDK throughout, a winner's turn does not fail and the tick returns a command that carries the first output of the final RTC, unless the judgement of a Move's goal puts a stop in its place |
| PipelineRuns.MeasuredGoalsAreNotReplaced | src/motion/command_pipeline.cpp:1128-1140 | the judgement of a MoveJ in time whose goal joints are all measured never puts a stop in its place |
| PipelineRuns.PermissionBindsSessions | src/motion/command_pipeline.cpp:296-476 | in every reachable state each live session was submitted under the permission and generation in force, and none outlives a change of them |
| PipelineRuns.ReturnedOvershootNeverGrows | src/motion/command_pipeline.cpp:981-1093 | of two commands a run returned along one backend start, the later lies no further outside any joint's limits than the earlier, and inside where the earlier was inside |
| PipelineRuns.StopsAreInside | src/motion/command_pipeline.cpp:783-809 | every stop command a run returned keeps each joint within its roundoff band |
| PipelineRuns.ActiveOvershootNeverGrows | src/motion/command_pipeline.cpp:981-1093 | in every reachable state no active session's joint has moved further out since its backend start |
| PipelineRuns.IssuedCommandsAreSafe | src/motion/command_pipeline.cpp:876-884 | every command a run ever returned passed the final RTC, lies in the widened limits and carries its deadline |
| PipelineRuns.SuccessIsEarned | src/motion/command_pipeline.cpp:1098-1131 | a session reported as succeeded was a Move whose observations had settled; unless it was a MoveJ the SDK had reported the path of one of its own starts reached, and of a MoveP every waypoint of its request, in order |
| PipelineRuns.SuccessStands | src/motion/command_pipeline.cpp:750-781 | what a session succeeded by and what it was asked for never change afterwards |
| PipelineRuns.AcceptedTargetIsInOrder | src/motion/command_pipeline.cpp:352-359 | a stamped target accepted after another is refused by the pipeline only for its lease, never as out of order |
| OwnershipPermit.RunKeeps | src/humanoid_motion_control_node.cpp:1073-1131 | the handover invariant holds in every interleaving of receiver and control tick |
| OwnershipPermit.GrantFollowsRevoke | src/humanoid_motion_control_node.cpp:1096-1098 | a key is granted only after it was revoked, with no other key and no "off" taken over since |
| OwnershipPermit.AcknowledgedRevokeIsSilent | src/humanoid_motion_control_node.cpp:1114-1129 | once a revoke or "off" is acknowledged nothing is permitted and the pipeline is disabled |
| OwnershipPermit.PublishedUnderCurrentKey | src/humanoid_motion_control_node.cpp:1610-1616 | an owned command is tagged with the key current at its publication, under a grant within its life, with no change since the capture before its kinematics |
| OwnershipPermit.ExpiryWithdraws | src/humanoid_motion_control_node.cpp:1605-1609 | a control tick that sees the expiry withdraws the permission |
| OwnershipPermit.RepeatsDoNotRevive | src/humanoid_motion_control_node.cpp:1073-1131 | a withdrawn permission stays withdrawn however the same grant is repeated |
| OwnershipPermit.RepeatRestoresExactlyUnwithdrawn | src/humanoid_motion_control_node.cpp:1099-1112 | repeating the grant past its life restores the permission exactly when no tick has withdrawn it |
| OwnershipPermit.UnseenExpiryIsRevived | src/humanoid_motion_control_node.cpp:1099-1112 | an expiry no tick has seen is undone by the next repeat: a run from the start that revokes, grants, lets the permission expire and repeats the grant |
| OwnershipPermit.FollowsThrough | src/humanoid_motion_control_node.cpp:1114-1129 | without interleaving the receiver leaves pipeline and acknowledgement at the phase of the change |
| OwnershipPermit.OffIsObeyed | src/humanoid_motion_control_node.cpp:1073-1129 | a fresh "off" is never refused: once followed through nothing is permitted and the pipeline is disabled |
| OwnershipPermit.GrantIsObeyed | src/humanoid_motion_control_node.cpp:1073-1129 | a fresh grant of the revoked key is never refused: once followed through publication is permitted |
| OwnershipPermit.PermittedIsPublished | src/humanoid_motion_control_node.cpp:1603-1741 | what a control tick computes under a permission that lives on is published, under its key |
| OwnershipPermit.OwnershipGate.ReceivePermit | src/humanoid_motion_control_node.cpp:1073-1113 | a message that parses, is newer and neither old nor early is taken over with its key, phase, stamp and receipt unless it is a grant of another key or after an "off"; one that changes key or phase withdraws the permission until it is followed through, one that repeats them does not; any other message changes nothing |
| OwnershipPermit.OwnershipGate.FollowChange | src/humanoid_motion_control_node.cpp:1114-1129 | the calls that follow a change equal the receiver's remaining steps: the pipeline is enabled exactly for a grant, queued input is gone and the change is acknowledged |
| OwnershipPermit.OwnershipGate.BeginTick | src/humanoid_motion_control_node.cpp:1603-1616 | expiry is withdrawn before generation and key are captured together |
| OwnershipPermit.OwnershipGate.PublishOwned | src/humanoid_motion_control_node.cpp:1683-1741 | published exactly when permitted, of the captured generation and within the permission's life |
| MoveReservations.MoveReservation.Reserve | src/humanoid_motion_control_node.cpp:1013-1038 | refused exactly if a joint of the group is owned or the group unknown; otherwise all its joints are owned and exactly the Servo channels that name an owned joint lose their queued input and their sessions |
| MoveReservations.MoveReservation.Release | src/humanoid_motion_control_node.cpp:1040-1049 | exactly the owner's joints are freed, each with the release time as cutoff, and no other joint changes |
| MoveReservations.MoveReservation.Queue | src/humanoid_motion_control_node.cpp:1568-1601 | queued exactly when no joint is owned, the stamp is past every cutoff and the timestamp is accepted; one slot per endpoint, fresh at the receipt less the age of the stamp |
| MoveReservations.MoveReservation.TakeQueued | src/humanoid_motion_control_node.cpp:1617-1621 | the whole queue is taken at once |
| MoveReservations.ReservationsHold | src/humanoid_motion_control_node.cpp:1013-1049 | in every interleaving each owner holds exactly its group, no queued input names an owned joint, and each stamp is past the cutoffs of its joints |
| MoveReservations.UnstampedIsDropped | src/humanoid_motion_control_node.cpp:1576-1582 | with the public mapping no unstamped Servo input is ever queued, after any run |
| MoveReservations.InputBeforeReleaseIsDropped | src/humanoid_motion_control_node.cpp:1040-1049 | input stamped before a Move's release is not queued on its joints |
| MoveReservations.TakenEscapesExactly | src/humanoid_motion_control_node.cpp:1013-1038 | input the tick has already taken names an owned joint after a reservation exactly when it did before or names a joint just reserved |
| MoveReservations.TakenInputMayNameOwnedJoint | src/humanoid_motion_control_node.cpp:1617-1621 | queue, take, reserve: an admissible run where taken input names an owned joint |
| InputTimestamps.InputTimestamp.Accept | include/humanoid_motion_server/motion/input_timestamp.hpp:18-54 | the in-place tracker follows the rule on stamp, age and ROS time |
| InputTimestamps.AcceptedStampsIncrease | include/humanoid_motion_server/motion/input_timestamp.hpp:46-51 | while ROS time does not go back accepted stamps strictly increase |
| InputTimestamps.FreshnessIsHonest | include/humanoid_motion_server/motion/input_timestamp.hpp:40-53 | an accepted input is fresh at its receipt or earlier, younger than the allowed age |
| InputTimestamps.FreshnessGoesBackExactly | include/humanoid_motion_server/motion/input_timestamp.hpp:33-53 | with both clocks together freshness goes back exactly when a stamped input follows an unstamped one it is older than |
| InputTimestamps.UnstampedThenStampedGoesBack | include/humanoid_motion_server/motion/input_timestamp.hpp:33-53 | such a pair of inputs |
| JointMapping.PublicJointMapping.Load | include/humanoid_motion_server/public_joint_mapping.hpp:19-41 | loading succeeds exactly when every entry has both names, a finite scale that is not nearly zero and a finite offset, and no name occurs twice; then both indexes are exact |
| JointMapping.PublicJointMapping.Convert | include/humanoid_motion_server/public_joint_mapping.hpp:45-86 | the exact refusals, and otherwise the image of every named joint in the order of the entries: model positions are scaled and offset public ones, model velocities scaled ones, public efforts scaled model ones, whichever way the conversion goes |
| JointMapping.RoundTrip | include/humanoid_motion_server/public_joint_mapping.hpp:45-86 | converting and converting back restores every named position, velocity and effort |
| JointMapping.PowerIsPreserved | include/humanoid_motion_server/public_joint_mapping.hpp:74-83 | the sum of velocity times effort is the same on both sides |
| JointMapping.OrderDoesNotMatter | include/humanoid_motion_server/public_joint_mapping.hpp:56-84 | the output does not depend on the order of the input |
| JointMapping.OutputIsImage | include/humanoid_motion_server/public_joint_mapping.hpp:70-84 | the output names exactly the entries the input names, each with the image of its values |
| PoseExecution.CleanUp | python/humanoid_motion_server/pose_execution.py:145-175 | no uncertainty is reported exactly when every goal sent was refused or has a finished result, late acceptances included, and the cleanup raised no exception; every accepted goal that runs on was asked to cancel |
| PoseExecution.ExecuteMoveJPose | python/humanoid_motion_server/pose_execution.py:61-190 | completion means every goal was accepted and succeeded, and without a request to cancel, an exception or a timeout that is reported as completion; an error reports no uncertainty exactly when all sent goals are settled and the cleanup raised no exception, and whatever runs on was asked to cancel |
| PoseExecution.ExecutePoseWithTeleop | python/humanoid_motion_server/pose_execution.py:11-49 | the control is released only when every goal sent is settled, resumed exactly after a complete success that asked for it and was not cancelled, and stays acquired otherwise |
| PoseExecution.GiveBack | python/humanoid_motion_server/pose_execution.py:40-49 | an unconfirmed release leaves the motion uncertain and resumes nothing; nothing is resumed once cancelled |
| PoseCover.CoverIsSound | python/humanoid_motion_server/poses.py:26-35 | what the search returns are disjoint candidates naming exactly the requested joints |
| PoseCover.CoverIsComplete | python/humanoid_motion_server/poses.py:26-35 | whenever an exact cover exists the search finds one |
| PoseCover.ChannelCoverIsFound | python/humanoid_motion_server/poses.py:14-37 | so it fails only if no choice of MoveJ channels covers the joints exactly |
| PoseCover.CollectCandidates | python/humanoid_motion_server/poses.py:14-24 | the candidates are exactly the suitable MoveJ groups, one per set of joints, each from the first channel that has it, largest first |
| PoseCover.PoseFromJointPositions | python/humanoid_motion_server/poses.py:11-41 | refused for an uncovered or an empty request, although nothing covers an empty one; otherwise a pose of the targets of an exact cover, exactly when the options and those targets are valid |
| PoseCover.TargetsAreDetermined | python/humanoid_motion_server/poses.py:36-41 | a cover has only one list of targets |
| PoseCover.ValidateTargets | python/humanoid_motion_server/poses.py:97-134 | accepted exactly when every target fits the group and limits of the last channel of its name and no channel or joint repeats |
| PoseCover.ResolveTargets | python/humanoid_motion_server/poses.py:139-163 | the goals of an accepted pose, resolved by channel name |
| PoseCover.ResolvesBackExactly | python/humanoid_motion_server/poses.py:139-163 | resolving a target gives back the requested positions, for all of them, exactly when its channel's name leads to the same joints |
| PoseCover.AcceptedPoseGivesBack | python/humanoid_motion_server/poses.py:139-163 | with unique channel names the goals move exactly the requested joints to their requested positions |
| KinematicPlants.KinematicPlant.constructor | python/humanoid_motion_server/simulation/plant.py:11-27 | the plant starts at its initial positions, within the limits, holding |
| KinematicPlants.KinematicPlant.ObserveClock | python/humanoid_motion_server/simulation/plant.py:29-33 | a ROS clock that went back holds the plant and forgets the stamps; any other changes nothing |
| KinematicPlants.KinematicPlant.Command | python/humanoid_motion_server/simulation/plant.py:35-51 | accepted exactly when it is young enough and every joint is known, once, finite, within limits and newer, or the clock went back; then the targets of exactly these joints are the commanded values, for the watchdog time less the age |
| KinematicPlants.KinematicPlant.Hold | python/humanoid_motion_server/simulation/plant.py:53-56 | targets become the positions and every deadline lapses |
| KinematicPlants.KinematicPlant.Step | python/humanoid_motion_server/simulation/plant.py:58-72 | every joint makes its clamped step towards the target in force; a stalled or backward clock holds |
| KinematicPlants.StepNeverOvershoots | python/humanoid_motion_server/simulation/plant.py:68-71 | a step goes towards the target, never past it, and no faster than the speed allows |
| KinematicPlants.StepMakesWay | python/humanoid_motion_server/simulation/plant.py:58-72 | a step lands on the target in force if it is within reach, and otherwise covers all the speed allows in the time since the last step |
| KinematicPlants.StepComesCloser | python/humanoid_motion_server/simulation/plant.py:58-72 | so a joint with a live target comes closer to it with every step |
| KinematicPlants.StepKeepsInv | python/humanoid_motion_server/simulation/plant.py:58-72 | a step keeps positions and targets within limits |
| KinematicPlants.CommandKeepsInv | python/humanoid_motion_server/simulation/plant.py:35-51 | so does a command |
| KinematicPlants.RejectedCommandKeepsTargetsExactly | python/humanoid_motion_server/simulation/plant.py:29-46 | a rejected command changes a target exactly when the ROS clock went back on a plant with targets other than its positions |
| KinematicPlants.RejectedCommandHoldsPlant | python/humanoid_motion_server/simulation/plant.py:29-46 | such a plant, set moving by an accepted command and held by a refused one |
| KinematicPlants.TravelWithinReach | python/humanoid_motion_server/simulation/plant.py:29-72 | over any run without an accepted command a joint covers at most its speed times the time left to its deadline since the last step |
| KinematicPlants.TravelIsBounded | python/humanoid_motion_server/simulation/plant.py:35-72 | after the last accepted command, under monotone time, a joint covers at most twice the watchdog at its speed |
| MimicExpansion.ExpandMimics | python/humanoid_motion_server/simulation/model.py:65-77 | succeeds exactly when every chain is grounded and every coefficient finite; it plays the mimics in rounds, and for mimics apart from the base each one is its source times its scale plus its offset |
| MimicExpansion.ExtensionIsUnique | python/humanoid_motion_server/simulation/model.py:65-77 | there is only one such extension, whatever the order of resolution |
| MimicExpansion.OrderMattersExactly | python/humanoid_motion_server/simulation/model.py:65-77 | mimics may be base positions too: all orders of the rounds give the same result if and only if no mimic follows, with a scale other than zero, another mimic that is a base position, follows a base position and would not keep its value |
| MimicExpansion.FailsExactlyWhenBroken | python/humanoid_motion_server/simulation/model.py:68-71 | a chain cannot be resolved exactly when some chain is cyclic or ends at an unknown name |
| MimicExpansion.OverlapDependsOnOrder | python/humanoid_motion_server/simulation/model.py:65-77 | base positions, mimics and two orders of one round that give different results |

## Left out

- ROS plumbing, action servers, publishers, evidence strings, diagnostics, YAML and URDF loading: input and output without a hard property.
- The closed SDK, its IK, RTC and kinematics, TF and quaternion code: arbitrary answers here; "pose within tolerance" is a value the kinematics reports.
- IEEE rounding: the limit checks keep the roundoff band as a positive constant per joint.
- Request, option and channel validation beyond what later code relies on: `Request.check` stands for its outcome.
- Move ids of the form of a Servo session id (`servo:` followed by an endpoint): assumed away, as the pipeline finds Servo sessions by that id.
- A pipeline whose configuration was refused: it registers no endpoint, so the model starts from an accepted one.
- `last_source_by_group_` and `servo_session_by_endpoint_`: written but never read.
- The order in which revoking the permission ends the sessions: any order here, map order in the code.
- Permit messages without an ownership key (the branch for frames not starting with `hc1:`): only the keyed handover is modelled.
- Reuse of a goal id while it still holds a reservation: goal ids are taken to be unique.
- Interrupts and signals during pose execution, and action-client calls other than sending, cancelling and spinning that raise.
- Names, ids and scales of poses: `optionsOk` stands for the outcome of their validation.
- Real thread scheduling: critical sections and single accesses to atomic variables are the steps that interleave.
- CommandPipelines.CommandPipeline.ValidateRequest: the limits, targets and poses of a request are one given outcome, since nothing later depends on which of them failed.
