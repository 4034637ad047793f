# Verified model of the motor, stack, planning and request core

This project states and proves what the deterministic core of the repository guarantees: that learned
policies, a supervisor and a capability gate together drive one keyboard and one camera safely; that the
service stack starts and stops as a transaction; that a model answer is published at most once; and that
plans are expanded, flattened, repaired and compacted as promised.

`dafny verify dfyconfig.toml` checks everything.

## How it is laid out

Each component has up to three files. `XModel` is its specification on values: one function per call,
with every branch of the source. `XFacts` proves properties of those functions, over all runs where the
component has state. The third file is the component in the source's own imperative form: a class whose
methods update fields and run the source's loops, each proved equal to its specification. An exception is
a returned error. `XLaws`, `PolicyTiming`, `RouterOptions`, `StackStarts` and `RequestHistory` say when a call
returns and what it leaves in terms of the clock readings, the answers and the earlier calls: they name other
calls, whose own laws stand beside them, but not how `XModel` computes.

| component | files |
|---|---|
| shared values, one motor action and a keyboard | Motor |
| learned-policy client, and the router over several | PolicyModel, PolicyFacts, PolicyLaws, PolicyTiming, PolicyClient, RouterModel, RouterFacts, RouterOptions, RouterExamples, PolicyRouter |
| motor gate and its backends | SafetyModel, SafetyFacts, SafetyLaws, MotorGate |
| supervisor | SupervisorModel, SupervisorFacts, SupervisorLaws, TransactionLaws, Supervisor, Calibration |
| router and supervisor together | MotorPath |
| service stack | StackPlan, StackModel, StackFacts, StackStarts, StackLauncher |
| model requests | RequestModel, RequestHistory, RequestLifecycle |
| acquisition planning | PlanningModel, PlanningFacts, PlanningLaws, Planner |
| plan repair | PlanGraphModel, PlanGraphFacts, PlanGraphLaws, PlanGraph |
| prompt compaction | Compaction, CompactionLaws |
| worker thread | Executor, ExecutorLaws |

The outside world is an oracle that is asked one question per tick: the clock, the operator's latches, what
a backend call, a spawn, a write or a kill does, what a worker answers. Statements quantify over all
oracles, so they hold for workers that answer late, wrongly or never, for calls that fail half-way, and for
cleanups that fail again. The clock is assumed not to run backwards. Names such as lease and process ids
are the tick at which they are given, which makes them fresh.

## What the proofs brought up

* `arm`, `resume`, `replace_backend`, `calibrate_world_camera` and `probe_world_camera` refuse under a
  latched emergency without withdrawing a live lease; every other call withdraws it (`LatchedCall`).
* A client forgets its held tokens before it builds their release, so a hold of more than sixteen keys is
  never released (`OverfullIsReached`, `OverfullHoldIsForgotten`; `ActOutcome` says exactly when); and without a
  step bound both camera ledgers count motion that is then refused (`HurriedMotionIsLost`, `ActTracksCamera`).
* A router reset that raises advances some of its bodies but not the router (`BodiesStayLevel` says when). Its
  next act then raises (`ResetThenActRaises`), and a later hand-over can drop a release, so that a key stays down
  that no body holds (`KeyStaysDown`). An exception of the grounding observer does the same in three calls
  (`ObserverDropsRelease`).
* A gate release without a refresh can leave the gate trusting a lease that a closed bridge no longer has
  (`ReleaseWithoutRefresh`). The supervisor always passes a refresh, and needs to.
* The calibration admits gains for which rounding keeps it from the pitch pole (`SmallGainMisses`);
  `CalibrationIffHomes` says for which.
* The last write of a stack start lies outside its rollback: when it fails, the start raises with everything
  running (`FailedLastWrite`). When a failing start can write nothing and its last process does not end, the
  next start goes ahead beside it (`ForgottenProcess`). `FailedStartLeavesNothing` and `RunAccounted` say
  exactly when.
* A start that reports no rollback error can leave a oneshot's start command running (`CleanIffNoOneshot`).
* The depth limit of the planner is checked before a target's methods, so it must exceed the number of
  targets that have methods (`DepthBoundIsTight`).
* `is_idle` is false while a cancelled item is still queued (`IdleExactly`).

## Model

| member | source | states |
|---|---|---|
| Motor.TowardArrives | src/minecraft_ai/safety.py:189-196 | the releases and presses computed from two held sets take a keyboard from the first to the second, and no token is both pressed and released |
| Motor.TowardFits | src/minecraft_ai/safety.py:95-132 | such an action passes the action constructor whenever both held sets fit its token limit |
| PolicyClient.TemporalPolicyClient.Act | src/minecraft_ai/policy_service.py:245-322 | the whole call: monotone sequence, blocked scene, missing frame, deadline and failure handling, on the object's own fields and the shared camera |
| PolicyClient.TemporalPolicyClient.Attempt | src/minecraft_ai/policy_service.py:264-313 | worker start, hung request, reading, holding and answering, in that order, with every exit |
| PolicyClient.TemporalPolicyClient.ConsumePendingResponse | src/minecraft_ai/policy_service.py:949-1003 | an answer clears the outstanding request before it is judged; a retired answer is passed on unjudged; a wrong id, a malformed or failed answer breaks the client or is a deadline |
| PolicyClient.TemporalPolicyClient.OutputAction | src/minecraft_ai/policy_service.py:1098-1173 | a prediction becomes press and release differences, with its motion through the queue; an action the constructor refuses leaves the held tokens as they were |
| PolicyClient.TemporalPolicyClient.DrainCamera | src/minecraft_ai/policy_service.py:1225-1279 | the slice emitted, the rest kept or dropped, and the shared pitch, for every limit and starting pitch |
| PolicyClient.TemporalPolicyClient.Hold | src/minecraft_ai/policy_service.py:1281-1324 | a hold is prolonged for an outstanding request or released when its time is over, while motion drains |
| PolicyClient.TemporalPolicyClient.Release | src/minecraft_ai/policy_service.py:1326-1349 | everything held is released and cleared, unless the release does not fit in one action |
| PolicyClient.TemporalPolicyClient.ResetScope | src/minecraft_ai/policy_service.py:387-423 | a reset retires the outstanding request, closes the worker if it cannot be told, and releases; any other failure of that write raises before anything is advanced or released |
| PolicyClient.TemporalPolicyClient.NotifyInputsReleased | src/minecraft_ai/policy_service.py:345-366 | an external release retires the outstanding request and forgets held tokens and queued motion |
| PolicyClient.TemporalPolicyClient.Close | src/minecraft_ai/policy_service.py:738-809 | closing drops the request, the retirement mark, the sighting and queued motion, and keeps the held tokens |
| PolicyFacts.ActOutcome | src/minecraft_ai/policy_service.py:245-322 | one whole call, for any held set, prediction and limits: it raises exactly when everything must be let go of and does not fit in one action; what it returns is admissible, carries its sequence and keeps a replayed keyboard in step with the held tokens exactly unless a hold ends that does not fit; its ledgers move by what it emits and what a refused action lost |
| PolicyFacts.RefusedWhen | src/minecraft_ai/policy_service.py:1098-1173 | the action constructor refuses exactly an ended hold that does not fit, or a prediction that changes more than sixteen tokens or, without a step bound, moves more than 4096 counts |
| PolicyFacts.ActHolds | src/minecraft_ai/policy_service.py:245-322 | what a call leaves held, from its guards alone: nothing, the same, or what the prediction holds, and everything when letting go does not fit |
| PolicyFacts.SmallActs | src/minecraft_ai/policy_service.py:245-322 | while predictions stay within those limits no call raises, forgets a hold or is refused its action |
| PolicyFacts.OverfullIsReached | src/minecraft_ai/policy_service.py:1098-1173 | two predictions, of sixteen keys and then of seventeen, take a new client to a hold that does not fit |
| PolicyFacts.OverfullHoldIsForgotten | src/minecraft_ai/policy_service.py:1281-1349 | when that hold ends the call releases nothing and the client forgets it: the held set is cleared before its release is built |
| PolicyFacts.OverfullReleaseRaises | src/minecraft_ai/policy_service.py:1326-1349 | and when the scene is blocked the call raises with everything still held |
| PolicyFacts.ActQuiet | src/minecraft_ai/policy_service.py:264-313 | a quiet client (nothing held or queued, no live request) presses nothing and moves nothing in its next call, whatever its worker answers |
| PolicyFacts.RetiredPredictionIsInert | src/minecraft_ai/policy_service.py:345-366 | the content of a prediction whose request was retired changes neither the action, nor the client, nor the pitch |
| PolicyFacts.RetiringQuiets | src/minecraft_ai/policy_service.py:387-423 | a reset retires the request and leaves the camera alone; it returns exactly the release of what was held and leaves the client quiet, or raises because that does not fit or the write raised, with everything still held; the sequence advances unless the write raised |
| PolicyFacts.NotifyingQuiets | src/minecraft_ai/policy_service.py:357-366 | an external release leaves the client sound and quiet |
| PolicyFacts.ConsumeKeeps | src/minecraft_ai/policy_service.py:949-1003 | reading an answer touches neither held tokens nor camera motion |
| PolicyFacts.DrainBounded | src/minecraft_ai/policy_service.py:1225-1279 | each slice stays within the step bound, and slice plus rest is the horizontal queue |
| PolicyFacts.ActTracksCamera | src/minecraft_ai/policy_service.py:1098-1173 | over a whole call the pitch estimate moves by exactly the world motion of the returned action, and the horizontal ledger by exactly its dx, if and only if no action that moves them is refused |
| PolicyFacts.HurriedMotionIsLost | src/minecraft_ai/policy_service.py:1225-1279 | without a step bound, one prediction of 5000 by 10 counts moves both ledgers while the returned action moves nothing |
| PolicyFacts.ActMovesOneSlice | src/minecraft_ai/policy_service.py:1225-1279 | a call leaves the pitch alone or moves it as one drained slice does |
| PolicyFacts.StaysInsideIff | src/minecraft_ai/policy_service.py:1225-1279 | a range is never left, by any slice, if and only if the body does not track pitch, has that range as its envelope, or has a smaller one and steps too short to jump across it |
| PolicyFacts.NoFartherOutsideIff | src/minecraft_ai/policy_service.py:1225-1279 | a body outside its envelope never moves farther outside if and only if it does not track pitch or its step bound is positive and at most the width of the envelope plus two |
| RouterModel.UniqueBodiesDistinct | src/minecraft_ai/policy_service.py:2276-2284 | the body list names each body once, however many routes share one |
| PolicyRouter.GroundedPolicyRouter.Act | src/minecraft_ai/policy_service.py:1434-1504 | sequence advance, warm-up refusal, binding and acting on client objects that may coincide |
| PolicyRouter.GroundedPolicyRouter.Bind | src/minecraft_ai/policy_service.py:1506-1541 | the previous body is reset before another, or the same one, goes on under a new option |
| PolicyRouter.GroundedPolicyRouter.Reset | src/minecraft_ai/policy_service.py:1598-1615 | every distinct body is reset once and the router forgets its option |
| PolicyRouter.GroundedPolicyRouter.ReleaseForObservation | src/minecraft_ai/policy_service.py:1617-1633 | bodies are released but the option is kept while a target is observed |
| PolicyRouter.GroundedPolicyRouter.NotifyInputsReleased | src/minecraft_ai/policy_service.py:1635-1643 | every distinct body is told once |
| RouterFacts.MergeReleases | src/minecraft_ai/policy_service.py:2424-2435 | folding a release into an action that presses nothing shows nothing held: no press is cancelled |
| RouterFacts.PerformAlone | src/minecraft_ai/policy_service.py:1490-1504 | a body acting on alone raises, stays in step and moves the ledgers exactly as its client does, unless it has already used the sequence number or the observer raises after it and its action is discarded |
| RouterFacts.PerformAfterRelease | src/minecraft_ai/policy_service.py:1490-1504 | after a hand-over the new body's action presses nothing, so the folded-in release is exact; it is lost exactly when that body has already used the sequence number or the observer raises |
| RouterFacts.BindKept | src/minecraft_ai/policy_service.py:1506-1541 | a hand-over raises exactly when what is held cannot be released, the observer raises, or the body that takes over has used the sequence number, and the keyboard goes out of step exactly when it raises after letting go; every other body stays quiet |
| RouterFacts.RefuseKept | src/minecraft_ai/policy_service.py:1479-1489 | refusing an option whose body is not ready raises exactly when it must release what cannot be released or the observer raises, and goes out of step exactly when the observer raises after the release |
| RouterFacts.ActKept | src/minecraft_ai/policy_service.py:1434-1504 | every act, for any routing: it raises exactly under its guards, what it returns is admissible and carries a larger sequence, it keeps the keyboard in step exactly when it does not meet a guard under which a hold is lost, and the ledgers move by what is emitted and lost |
| RouterFacts.ResetBodiesRelease | src/minecraft_ai/policy_service.py:1598-1615 | resetting all bodies releases exactly what the active one held, or raises exactly because that does not fit or a write raised; then exactly the bodies before that have been reset and advanced |
| RouterFacts.ResetKept | src/minecraft_ai/policy_service.py:1590-1615 | a reset returns or raises accordingly, leaves the camera alone, and puts the keyboard out of step exactly when a later body or the observer raises after the active body has let go |
| RouterFacts.ObserveKept | src/minecraft_ai/policy_service.py:1617-1633 | a release for observation does the same, and leaves the observer alone |
| RouterFacts.FailedResetGoesAhead | src/minecraft_ai/policy_service.py:1598-1615 | a reset that raises after advancing the active body has not advanced the router, so when both were level that body's next act raises too |
| RouterFacts.ActLevel | src/minecraft_ai/policy_service.py:1441-1541 | from a router level with its bodies, every act, however it ends, leaves it level, and meets no sequence number that a body has used |
| RouterFacts.AdvancedToActive | src/minecraft_ai/policy_service.py:1598-1615 | when no write raises, the bodies a raising reset advances are those up to and including the active one |
| RouterFacts.StepLevelIff | src/minecraft_ai/policy_service.py:387-423 | from a level router a call leaves a level router exactly unless it is a reset that raises after advancing some body beyond the router |
| RouterFacts.BodiesStayLevel | src/minecraft_ai/policy_service.py:245-254 | over every run, no body is ahead of the router after any call if and only if no reset meets that guard; then no act meets a used sequence number; and none does while predictions fit in one action and nothing else raises |
| RouterExamples.ResetThenActRaises | src/minecraft_ai/policy_service.py:1441-1447 | a new router, after two predictions of sixteen and seventeen keys and a reset that raises, is no longer level and its next act raises |
| RouterExamples.KeyStaysDown | src/minecraft_ai/policy_service.py:1506-1541 | eleven calls of a new router after which a key stays down that no body holds: after three raising resets a body is bound with a used sequence number, and the release of the body before it is dropped |
| RouterExamples.ObserverDropsRelease | src/minecraft_ai/policy_service.py:1579-1615 | three calls of a new router after which the observer, raising in a reset, has dropped a release |
| RouterFacts.NotifyKept | src/minecraft_ai/policy_service.py:1635-1643 | after an external release nothing is held and the invariant stands |
| RouterFacts.SmallCalls | src/minecraft_ai/policy_service.py:1434-1643 | while predictions fit in one action and neither observer nor reset command raises: every body stays level with the router, what is held fits, no call loses a hold, only a warm-up raises, and no motion is lost |
| RouterFacts.RouterRefinesOneKeyboard | src/minecraft_ai/policy_service.py:1353-1643 | over every run, whatever is predicted and raised: sequences strictly increase and actions are admissible; every body but the active one holds nothing and owns no live request; and the replayed keyboard shows exactly the active body's held tokens after every call if and only if no call meets a guard under which a hold is lost, which none does while predictions fit in one action and nothing else raises |
| RouterFacts.RouterTracksOneCamera | src/minecraft_ai/policy_service.py:1225-1279 | over every run, with any number of bodies and any step bounds: emitted horizontal motion and what refused or discarded actions lost make up what the bodies count; the pitch is its start plus emitted world motion plus what was lost; nothing is lost while predictions fit and nothing raises; a range that confines every body is never left, and one that encloses every body bounds how far outside the pitch can be |
| MotorGate.InputBackend.BindLease | src/minecraft_ai/bridge/client.py:99-122 | binding succeeds, or raises with the old, the new or no binding |
| MotorGate.InputBackend.Apply | src/minecraft_ai/safety.py:189-196 | downs are added before ups are removed; a failing apply may leave any part of it held |
| MotorGate.InputBackend.ReleaseAll | src/minecraft_ai/bridge/client.py:152-161 | a release clears all, or is swallowed by a closing bridge, or raises; only the first confirms neutrality |
| MotorGate.InputBackend.ClearLease | src/minecraft_ai/bridge/client.py:163-180 | clearing drops the binding, closing the bridge if it has to |
| MotorGate.MotorGate.Issue | src/minecraft_ai/safety.py:233-272 | argument checks, revocation first, and publication only after the backend is bound |
| MotorGate.MotorGate.Renew | src/minecraft_ai/safety.py:274-302 | the old lease is withdrawn while the backend is rebound |
| MotorGate.MotorGate.Apply | src/minecraft_ai/safety.py:304-361 | the four refusals in order, backend failure, and the refresh of an accepted action |
| MotorGate.MotorGate.ReleaseInputs | src/minecraft_ai/safety.py:363-409 | a confirmed release may refresh the lease; a failed one revokes |
| MotorGate.MotorGate.CheckExpiry | src/minecraft_ai/safety.py:411-418 | an expired lease is revoked, and only an expired one |
| MotorGate.MotorGate.RequireLease | src/minecraft_ai/safety.py:424-436 | naming any lease but the live one revokes it |
| MotorGate.MotorGate.Revoke | src/minecraft_ai/safety.py:438-457 | the lease goes first; release and clearing are both tried |
| SafetyFacts.RevokeTriesBoth | src/minecraft_ai/safety.py:438-457 | clearing does not depend on the release, a working backend ends neutral and unbound, and the first failure is the one reported |
| SafetyFacts.RevokeFences | src/minecraft_ai/safety.py:438-457 | however its two backend calls end, a revocation leaves no lease and a consistent gate |
| SafetyFacts.ExtendKept | src/minecraft_ai/safety.py:337-361 | prolonging a lease ends with gate and backend bound to the same expiry, or with no lease |
| SafetyFacts.IssueKept | src/minecraft_ai/safety.py:233-272 | bad arguments change nothing; afterwards any failure leaves no lease, and success binds the backend to the issued lease |
| SafetyFacts.RenewKept | src/minecraft_ai/safety.py:274-302 | the same for renewal, which keeps the lease's target and activity |
| SafetyFacts.ApplyKept | src/minecraft_ai/safety.py:304-361 | any rejection or failure after argument checks leaves no lease; an accepted action is lawful, in order and recorded |
| SafetyFacts.ReleaseInputsKept | src/minecraft_ai/safety.py:363-409 | with a refresh, a release keeps gate and backend in agreement or leaves no lease |
| SafetyFacts.ReleaseWithoutRefresh | src/minecraft_ai/bridge/client.py:152-161 | without a refresh, gate and backend still agree if and only if the bridge did not swallow the release |
| SafetyFacts.CheckExpiryKept | src/minecraft_ai/safety.py:411-418 | the watchdog keeps agreement and reports exactly the expiries it acted on |
| SafetyFacts.LawfulIsAuthorized | src/minecraft_ai/safety.py:207-214 | an action the monitor permits lies under a lease issued and, for a runtime, activated since, with nothing ending it in between, starts before an expiry at most five seconds after the last grant, within the lease's limits and above every earlier sequence |
| SafetyFacts.AuthorityIsEarned | src/minecraft_ai/safety.py:207-214 | what the reference monitor grants was issued, and since then neither revoked, withdrawn nor replaced; an active grant was activated in between |
| Supervisor.Supervisor.Start | src/minecraft_ai/supervisor.py:336-348 | the emergency path revokes and publishes before raising; a set pause latch pauses |
| Supervisor.Supervisor.Pause | src/minecraft_ai/supervisor.py:354-366 | the three quiet phases, the fault phase, and revocation with publication on every exit |
| Supervisor.Supervisor.Resume | src/minecraft_ai/supervisor.py:368-384 | only a paused supervisor resumes; a failed one is stopped |
| Supervisor.Supervisor.ReplaceBackend | src/minecraft_ai/supervisor.py:386-412 | the old backend is released and closed, whatever the release does, before a new gate exists |
| Supervisor.Supervisor.CalibrateWorldCamera | src/minecraft_ai/supervisor.py:462-562 | the private lease, every chunk with its interlock checks, and every way out |
| Supervisor.Supervisor.ProbeWorldCamera | src/minecraft_ai/supervisor.py:564-625 | one bounded move on one axis under a private lease |
| Supervisor.Supervisor.Arm | src/minecraft_ai/supervisor.py:627-650 | an emergency refuses, a pause revokes, and only then is a lease issued |
| Supervisor.Supervisor.Renew | src/minecraft_ai/supervisor.py:652-666 | renewal only while armed or running, after the latches |
| Supervisor.Supervisor.ApplyMotorAction | src/minecraft_ai/supervisor.py:668-719 | lease check, malformed actions, route faults, and the camera ledger of accepted actions |
| Supervisor.Supervisor.ReleaseInputs | src/minecraft_ai/supervisor.py:721-736 | a release always passes a refresh |
| Supervisor.Supervisor.SendChat | src/minecraft_ai/supervisor.py:738-765 | typing between two renewals, and what each failure leads to |
| Supervisor.Supervisor.Activate | src/minecraft_ai/supervisor.py:782-799 | an armed supervisor with a live lease runs; otherwise authority is withdrawn |
| Supervisor.Supervisor.Disarm | src/minecraft_ai/supervisor.py:801-814 | authority ends on every exit |
| Supervisor.Supervisor.Fail | src/minecraft_ai/supervisor.py:816-829 | a fault is recorded and authority ends on every exit |
| Supervisor.Supervisor.Stop | src/minecraft_ai/supervisor.py:831-845 | from any phase to stopped |
| Supervisor.Supervisor.Watchdog | src/minecraft_ai/supervisor.py:918-929 | one turn of the serve loop |
| Supervisor.Supervisor.CloseOwnedRuntime | src/minecraft_ai/supervisor.py:949-974 | revocation, the control socket, the backend, the status and the control file are each tried past failures; the error that ended the loop is kept, or else the first of theirs is raised |
| SupervisorFacts.FailQuiesces | src/minecraft_ai/supervisor.py:816-829 | a failure ends in the fault phase with no lease, wherever backend calls and publishing fail |
| SupervisorFacts.DisarmQuiesces | src/minecraft_ai/supervisor.py:801-814 | so does a disarm, in its own phase |
| SupervisorFacts.PauseQuiesces | src/minecraft_ai/supervisor.py:354-366 | so does a pause |
| SupervisorFacts.StopQuiesces | src/minecraft_ai/supervisor.py:831-845 | so does a stop |
| SupervisorFacts.GuardedKept | src/minecraft_ai/supervisor.py:652-659 | a set latch withdraws all authority before a motor-facing call does anything |
| SupervisorFacts.StartKept | src/minecraft_ai/supervisor.py:336-348 | starting keeps the authority invariant |
| SupervisorFacts.ResumeKept | src/minecraft_ai/supervisor.py:368-384 | so does resuming |
| SupervisorFacts.ReplaceBackendKept | src/minecraft_ai/supervisor.py:386-412 | so does replacing the backend |
| SupervisorFacts.ArmKept | src/minecraft_ai/supervisor.py:627-650 | arming leaves an armed supervisor with a lease not yet active, or no lease |
| SupervisorFacts.ActivateKept | src/minecraft_ai/supervisor.py:782-799 | only an armed supervisor with a live lease runs, and its lease then counts as activated |
| SupervisorFacts.RequireRunningKept | src/minecraft_ai/supervisor.py:767-780 | a runtime call gets through only with the live, named, activated lease of a running supervisor |
| SupervisorFacts.ApplyMotorActionKept | src/minecraft_ai/supervisor.py:668-719 | a refused, failed or malformed action leaves no lease; the ledger moves by exactly the accepted world motion |
| SupervisorFacts.ReleaseInputsCallKept | src/minecraft_ai/supervisor.py:721-736 | releasing inputs keeps the invariant |
| SupervisorFacts.SendChatKept | src/minecraft_ai/supervisor.py:738-765 | chat keeps the runtime lease or withdraws it |
| SupervisorFacts.CalibrateKept | src/minecraft_ai/supervisor.py:462-562 | no private lease outlives a calibration, however it ends |
| SupervisorFacts.ProbeKept | src/minecraft_ai/supervisor.py:564-625 | nor a probe |
| SupervisorFacts.ConcludedQuiesces | src/minecraft_ai/supervisor.py:529-547 | the handler and the final cleanup of a transaction leave no lease, even when both raise |
| SupervisorFacts.WatchdogKept | src/minecraft_ai/supervisor.py:918-929 | a turn of the serve loop keeps the invariant, and under an emergency ends all authority |
| SupervisorFacts.CloseRuntimeKept | src/minecraft_ai/supervisor.py:949-974 | leaving the serve loop ends all authority, whichever cleanups raise and whatever ended the loop |
| SupervisorFacts.AuthorityInvariant | src/minecraft_ai/supervisor.py:304-974 | over every run of calls, returning or raising: a live lease means ARMED or RUNNING and a backend bound to that lease and expiry; without one, a held input means the last release was not confirmed |
| SupervisorFacts.HistoryIsLawful | src/minecraft_ai/supervisor.py:304-974 | over every run of calls, the reference monitor permits every action the gate accepted, and sequences grow under each lease |
| SupervisorFacts.AcceptedAction | src/minecraft_ai/supervisor.py:627-719 | over every run, each accepted action was authorized when it ran: a lease obtained by arm then activate, nothing ending it in between, a later sequence, and an expiry at most five seconds after the last grant |
| SupervisorFacts.LatchedCall | src/minecraft_ai/supervisor.py:627-845 | under a latched emergency no call leaves a live lease, except that preparing calls refuse without touching one |
| SupervisorFacts.LifecycleFollowsTheTable | src/minecraft_ai/supervisor.py:330-348 | only an unlatched activate runs, only an unlatched arm arms, a fault is only left by stopping, and stopped only by starting |
| MotorPath.AcceptedEffect | src/minecraft_ai/supervisor.py:668-719 | an accepted action changes the backend's held tokens, the gate's sequence and the camera ledger by exactly that action |
| MotorPath.ArmedIsNeutral | src/minecraft_ai/supervisor.py:627-650 | a successful arm starts from released inputs and an unused sequence |
| MotorPath.BeatAside | src/minecraft_ai/supervisor.py:652-666 | a heartbeat keeps what is held, the sequence and the camera ledger, or ends the lease |
| MotorPath.WatchAside | src/minecraft_ai/supervisor.py:922-931 | so does a turn of the watchdog |
| MotorPath.DeliveryAgrees | src/minecraft_ai/supervisor.py:668-736 | one accepted delivery keeps backend, sequence and camera ledger in agreement with what the router emitted |
| MotorPath.RouterAndSupervisorAgree | src/minecraft_ai/supervisor.py:668-736 | end to end, over every run of deliveries with heartbeats and watchdog turns in between: while deliveries are accepted and the lease lives the backend holds what the emitted actions show, which is what the active body holds when no hold is lost; the supervisor's camera ledger is the router's less what refused actions lost; and the router's next action is never refused as a replay |
| Calibration.SplitTotal | src/minecraft_ai/supervisor.py:201-209 | the loop that cuts a motion into chunks |
| Calibration.BoundedCameraCalibrationDeltas | src/minecraft_ai/supervisor.py:190-216 | the deltas, and the gains and step bounds that are refused |
| Calibration.SplitWithin | src/minecraft_ai/supervisor.py:201-209 | every chunk is within the bound and points the same way |
| Calibration.TurnedBySplit | src/minecraft_ai/supervisor.py:201-209 | a camera that stops at its poles ends where one motion of the total would take it, however it is cut |
| Calibration.CalibrationIffHomes | src/minecraft_ai/supervisor.py:211-216 | from every legal start the camera ends within half a count of the horizon if and only if the two roundings leave that little slack |
| Calibration.CalibrationBound | src/minecraft_ai/supervisor.py:190-216 | every gain from 0.025 on has that property, with every chunk within the step bound |
| Calibration.SmallGainMisses | src/minecraft_ai/supervisor.py:196-197 | a gain the code admits for which the calibration misses |
| StackPlan.OrderedServices | src/minecraft_ai/stack_lifecycle.py:223-242 | rounds of ready services until none remain or none are ready |
| StackPlan.OrderedIsSoundAndComplete | src/minecraft_ai/stack_lifecycle.py:223-242 | the order holds every service once, after its dependencies; and a plan is refused exactly when no such order exists |
| StackPlan.SomeServiceIsReady | src/minecraft_ai/stack_lifecycle.py:230-237 | while services remain, the existence of any start order makes one ready |
| StackLauncher.PortableStackLauncher.StartService | src/minecraft_ai/stack_lifecycle.py:526-651 | reuse, external waits, daemons and oneshots, with the moment each record is announced |
| StackLauncher.PortableStackLauncher.StartOneshot | src/minecraft_ai/stack_lifecycle.py:598-651 | ownership is announced between spawn and wait; a start command that must go is contained |
| StackLauncher.PortableStackLauncher.Undo | src/minecraft_ai/stack_lifecycle.py:700-721 | both halves of an undo are tried; a record of an unknown service is a problem |
| StackLauncher.PortableStackLauncher.Rollback | src/minecraft_ai/stack_lifecycle.py:697-722 | owned records newest first, past problems |
| StackLauncher.PortableStackLauncher.Recover | src/minecraft_ai/stack_lifecycle.py:378-409 | what an earlier transaction left is settled, or refused, before a new one |
| StackLauncher.PortableStackLauncher.Abandon | src/minecraft_ai/stack_lifecycle.py:438-475 | a failed start is rolled back and written down |
| StackLauncher.PortableStackLauncher.Start | src/minecraft_ai/stack_lifecycle.py:376-483 | the whole transaction on one machine |
| StackLauncher.PortableStackLauncher.Stop | src/minecraft_ai/stack_lifecycle.py:485-510 | stopping, complete or not |
| StackFacts.UndoEffect | src/minecraft_ai/stack_lifecycle.py:700-721 | an undo touches nothing but what its record claims; without problems it leaves none of it |
| StackFacts.RollbackEffect | src/minecraft_ai/stack_lifecycle.py:697-722 | a rollback visits every owned record once, newest first, past any problem; stops nothing reused; and without problems leaves nothing it owned |
| StackFacts.RollbackConfirms | src/minecraft_ai/stack_lifecycle.py:697-722 | a rollback reports no problem exactly when each inverse command runs and succeeds and each process group is confirmed gone, newest first |
| StackFacts.ProblemsLeaveSomething | src/minecraft_ai/stack_lifecycle.py:697-722 | a rollback of what is live that reports a problem leaves something alive that its records claim |
| StackFacts.UndoReportsEachHalf | src/minecraft_ai/stack_lifecycle.py:707-721 | each half of an undo that is not reported worked, whatever became of the other |
| StackFacts.RollbackReportsSurvivors | src/minecraft_ai/stack_lifecycle.py:697-722 | whatever an owned record claims and a rollback leaves alive is reported under its name |
| StackFacts.ReleasedOwnsNothing | src/minecraft_ai/stack_lifecycle.py:1528-1540 | released records claim nothing |
| StackFacts.StartServiceEffect | src/minecraft_ai/stack_lifecycle.py:526-651 | whatever a start creates is recorded before it can fail, except a start command that could not be contained |
| StackFacts.StartServicesEffect | src/minecraft_ai/stack_lifecycle.py:435-437 | the records follow the start order, and what is live is recorded |
| StackFacts.AbandonEffect | src/minecraft_ai/stack_lifecycle.py:438-475 | undoing a failed transaction visits exactly its records, newest first; with no error to report nothing owned is live or written down |
| StackFacts.AbandonClears | src/minecraft_ai/stack_lifecycle.py:438-475 | undoing a failed transaction leaves nothing owned, live or written down, exactly when all undoing is confirmed and either the failure is written down or nothing written was owned |
| StackFacts.AbandonAccounts | src/minecraft_ai/stack_lifecycle.py:438-475 | it loses track of something exactly when its last record, the rollback and the failure all went unwritten and undoing that record is not confirmed |
| StackFacts.LaunchEffect | src/minecraft_ai/stack_lifecycle.py:411-483 | a start that returns has written a running manifest with every service in order; one that does not leaves nothing, or loses track, exactly under the named answers |
| StackFacts.RecoverEffect | src/minecraft_ai/stack_lifecycle.py:378-409 | from any state: a new transaction begins only once everything the manifest names as owned is confirmed stopped, and then nothing else is live exactly when all of it was accounted for |
| StackFacts.StopEffect | src/minecraft_ai/stack_lifecycle.py:485-510 | a stop loses track of nothing, and one that returns leaves nothing owned, live or written down, exactly when all was accounted for |
| StackFacts.RunAccounted | src/minecraft_ai/stack_lifecycle.py:376-510 | over every run, what is live is written down as owned after every call exactly when no start meets the answers under which one loses track |
| StackFacts.DependentsUndoneFirst | src/minecraft_ai/stack_lifecycle.py:697-701 | in a start that recovers or abandons and in a stop alike, whatever was lost before: what is newly visited is at most two rollbacks, neither naming a dependency before a service that depends on it |
| StackFacts.RunUndoesInOrder | src/minecraft_ai/stack_lifecycle.py:376-510 | the same for every call of every run |
| StackFacts.FailedStartLeavesNothing | src/minecraft_ai/stack_lifecycle.py:376-483 | a start that raises StackStartError with no rollback errors leaves nothing owned, live or written down; any start that does not return leaves nothing exactly under the named answers; and any start keeps everything accounted for exactly unless it meets the answers that lose track |
| StackFacts.FailedLastWrite | src/minecraft_ai/stack_lifecycle.py:476-483 | a start whose last write fails raises with its daemon running and the manifest owning it: that write lies outside the rollback |
| StackFacts.ForgottenProcess | src/minecraft_ai/stack_lifecycle.py:376-475 | when the announcement, the rollback and the failure all go unwritten and the daemon does not end, the next start goes ahead beside it |
| StackFacts.OneshotMayRemain | src/minecraft_ai/stack_lifecycle.py:749-802 | a oneshot's start command can outlive a start that reports no error |
| StackFacts.CleanIffNoOneshot | src/minecraft_ai/stack_lifecycle.py:376-483 | an unreported failed start is sure to leave nothing new alive at all if and only if no service is a oneshot |
| RequestLifecycle.ModelRequestLifecycle.StartAttempt | src/minecraft_ai/model_requests.py:148-160 | no new attempt after an outcome, a completion or the deadline |
| RequestLifecycle.ModelRequestLifecycle.FinishAttempt | src/minecraft_ai/model_requests.py:162-176 | a finish is recorded once and cannot be rewritten |
| RequestLifecycle.ModelRequestLifecycle.MarkComputationComplete | src/minecraft_ai/model_requests.py:178-187 | completion waits for every attempt and is recorded once |
| RequestLifecycle.ModelRequestLifecycle.Reject | src/minecraft_ai/model_requests.py:189-197 | the first outcome wins, and a running publication excludes rejection |
| RequestLifecycle.ModelRequestLifecycle.Accept | src/minecraft_ai/model_requests.py:199-248 | checks, the re-entrant callback, both endings, and an unusable clock |
| RequestLifecycle.ModelRequestLifecycle.TakeDiscardNotice | src/minecraft_ai/model_requests.py:250-259 | the discard reason is handed out once |
| RequestFacts.PublishingIsInert | src/minecraft_ai/model_requests.py:199-248 | while a callback runs, nothing it calls on the request has any effect |
| RequestFacts.AcceptKept | src/minecraft_ai/model_requests.py:199-248 | an acceptance keeps the invariant, and answers yes only for the accepted identity |
| RequestFacts.AtMostOncePublication | src/minecraft_ai/model_requests.py:108-259 | over every sequence of calls and nested calls: the callback runs at most once, over finished attempts and a successful selection; accepted exactly when it returned; one discard notice at most, never for an accepted request |
| RequestFacts.OutcomeIsFinal | src/minecraft_ai/model_requests.py:108-259 | an outcome is never changed, nor published again |
| RequestFacts.RepeatedAcceptance | src/minecraft_ai/model_requests.py:216-220 | repeating an acceptance says yes to the very same identity and to nothing else, without calling back |
| Planner.Expand | src/minecraft_ai/planning.py:175-215 | the expansion of one target with its local accumulator |
| Planner.ExpandMethod | src/minecraft_ai/planning.py:217-263 | slots and leaf cost accumulated over requirements |
| Planner.Minimum | src/minecraft_ai/planning.py:173-173 | the first least option in one pass |
| Planner.Plan.Add | src/minecraft_ai/planning.py:74-77 | a step number is added once |
| Planner.Plan.ReadySteps | src/minecraft_ai/planning.py:79-84 | the steps whose prerequisites are done |
| Planner.FlattenTree | src/minecraft_ai/planning.py:285-329 | children first, into a shared plan and counter; no step number is ever taken |
| Planner.MakeDependencyPlan | src/minecraft_ai/planning.py:265-272 | an empty plan for a goal without a target, a KeyError for an unknown one, and otherwise the best tree, flattened |
| PlanningFacts.DependencyPlanEnds | src/minecraft_ai/planning.py:265-272 | a plan is refused exactly for an unknown target, empty exactly without a target, and otherwise ends with the step of the target |
| PlanningFacts.SortIsStable | src/minecraft_ai/planning.py:214-214 | sorting orders options by key and keeps the options of each key as they were |
| PlanningFacts.BestIsHeadOfSort | src/minecraft_ai/planning.py:275-282 | the least option is the head of the sorted options |
| PlanningFacts.ExpandShaped | src/minecraft_ai/planning.py:175-263 | no target is expanded twice on a branch, leaves are what they claim, slots are sorted, and expanded nodes cost what their heads cost |
| PlanningFacts.DepthIndependence | src/minecraft_ai/planning.py:175-263 | any two depth limits above the number of targets that have methods give the same options |
| PlanningFacts.DepthBoundIsTight | src/minecraft_ai/planning.py:189-192 | a limit equal to that number does not: the limit is checked before the methods |
| PlanningFacts.OptionsShaped | src/minecraft_ai/planning.py:137-173 | a target outside the graph is refused; for any other, options are never empty, come best first and in shape, and the best plan is the first |
| PlanningFacts.FlatteningIsASchedule | src/minecraft_ai/planning.py:79-93 | step numbers are unique, prerequisites name earlier steps, nothing is missing, and whatever is completed, some step is ready until all are |
| PlanningFacts.ScheduleCostsItsEstimate | src/minecraft_ai/planning.py:285-329 | the steps that wait for nothing cost together what the chosen tree estimated |
| PlanGraph.PlanGraph.constructor | src/minecraft_ai/plan_graph.py:235-267 | the nodes of every step and its alternatives |
| PlanGraph.PlanGraph.MarkSucceeded | src/minecraft_ai/plan_graph.py:102-117 | the current node, if it matches, succeeds and the cursor moves on |
| PlanGraph.PlanGraph.BlockCurrentMethod | src/minecraft_ai/plan_graph.py:119-155 | the current method is blocked and a sibling takes its place, or the cursor moves on |
| PlanGraph.PlanGraph.NextAlternative | src/minecraft_ai/plan_graph.py:157-198 | listed alternatives first, then an unused skill of the library |
| PlanGraphFacts.AlternativesAreSkills | src/minecraft_ai/plan_graph.py:280-301 | alternatives are other skills of the library, at most four |
| PlanGraphFacts.AlternativesAreTheBest | src/minecraft_ai/plan_graph.py:280-301 | a usable skill is left out only for four that rank no worse |
| PlanGraphFacts.BlockKept | src/minecraft_ai/plan_graph.py:119-155 | a block that matches uses up an original node or a skill, and keeps the plan in order |
| PlanGraphFacts.RepairIsBounded | src/minecraft_ai/plan_graph.py:71-155 | over every run, whichever library each block brings: order ids exist, everything behind the cursor succeeded or was blocked, and calls that did something are bounded: blocks by the nodes there were and the skills that were offered, successes by the steps |
| PlanGraphFacts.RepairFinishes | src/minecraft_ai/plan_graph.py:119-198 | blocking whatever is current, with one library after the other, reaches the end after at most as many blocks as there were nodes and skills in those libraries |
| Compaction.Round | src/minecraft_ai/native_world_model.py:550-636 | one round of the loop: the first thing that may go, in order |
| Compaction.CompactPlannerPrompt | src/minecraft_ai/native_world_model.py:543-636 | each context is offered once, everything mandatory is in each, a result meets both bounds, and refusal comes only when nothing droppable is left |
| Compaction.ShrinkStopsWhenIrreducible | src/minecraft_ai/native_world_model.py:550-636 | a round finds nothing to drop exactly when nothing droppable is left |
| Compaction.ShrinkKeeps | src/minecraft_ai/native_world_model.py:550-632 | a round keeps requested skills and their allowed entries, mandatory goals, protected facts and the literal parts |
| Compaction.EarlierPartsGoFirst | src/minecraft_ai/native_world_model.py:550-636 | a section loses a row only when every section before it has nothing left to lose, and other parts only when all sections have |
| Compaction.KeptRowSurvives | src/minecraft_ai/native_world_model.py:564-577 | a requested skill or mandatory goal survives up to its description and competence |
| Compaction.ShrinkDecreases | src/minecraft_ai/native_world_model.py:550-632 | every round makes the context strictly smaller |
| DaemonExecutor.SingleWorkerDaemonExecutor.Submit | src/minecraft_ai/agent/daemon_executor.py:54-68 | nothing is accepted after shutdown |
| DaemonExecutor.SingleWorkerDaemonExecutor.Shutdown | src/minecraft_ai/agent/daemon_executor.py:70-78 | queued items are cancelled one by one |
| DaemonExecutor.SingleWorkerDaemonExecutor.TakeOrExit | src/minecraft_ai/agent/daemon_executor.py:94-102 | the worker takes the oldest item or leaves |
| DaemonExecutor.SingleWorkerDaemonExecutor.SetRunningOrNotifyCancel | src/minecraft_ai/agent/daemon_executor.py:23-25 | a cancelled item is not run |
| DaemonExecutor.SingleWorkerDaemonExecutor.Settle | src/minecraft_ai/agent/daemon_executor.py:26-31 | the item's future gets its outcome |
| DaemonExecutor.SingleWorkerDaemonExecutor.MarkInactive | src/minecraft_ai/agent/daemon_executor.py:103-107 | the worker is idle only after its item is over |
| ExecutorFacts.ItemsRunOnceInOrder | src/minecraft_ai/agent/daemon_executor.py:34-107 | over every interleaving: items start at most once and in submission order, and each is queued, in hand, running or over |
| ExecutorFacts.NothingAfterShutdown | src/minecraft_ai/agent/daemon_executor.py:54-78 | no interleaving after a shutdown accepts an item |
| ExecutorFacts.IdleExactly | src/minecraft_ai/agent/daemon_executor.py:89-92 | idle is exactly: nothing left to run, no cancelled item queued, and the worker not between its item and saying so |
| ExecutorFacts.CancelledIsNotIdle | src/minecraft_ai/agent/daemon_executor.py:89-92 | a cancelled queued item keeps the executor from being idle |
| ExecutorFacts.ClosedRunsDry | src/minecraft_ai/agent/daemon_executor.py:94-107 | after shutdown the worker, left alone, settles every item that was not cancelled, and exits |
| PolicyLaws.AnsweredInVain | src/minecraft_ai/policy_service.py:949-1003 | an answer nobody waits for any more is thrown away, and another request, due one deadline after its own reading, is written in its place |
| PolicyLaws.AnsweredWithPrediction | src/minecraft_ai/policy_service.py:292-313 | a prediction is applied exactly if its latency is within the limit, the reading at output is before its deadline, and it is admitted; a late one costs the hold, an inadmissible one the worker |
| PolicyLaws.AnsweredWithFailure | src/minecraft_ai/policy_service.py:976-1003 | a reported timeout is a late answer exactly once the deadline is past; any other failure costs the worker |
| PolicyLaws.NotAnswered | src/minecraft_ai/policy_service.py:264-277 | a silent worker is waited for exactly until the deadline; a dead one, a wrong id or a malformed line costs the worker |
| PolicyLaws.NotAsked | src/minecraft_ai/policy_service.py:282-291 | with nothing outstanding motion drains first, and then a request is written, due one deadline after the reading at which it is |
| PolicyLaws.Cutting | src/minecraft_ai/policy_service.py:738-809 | a worker that is gone or hangs takes its request, its sighting and the queued motion with it, and nothing else |
| PolicyLaws.SliceIsNearest | src/minecraft_ai/policy_service.py:1225-1279 | a slice is the part of the motion nearest to all of it that the step bound allows |
| PolicyLaws.EnvelopedIsNearest | src/minecraft_ai/policy_service.py:1225-1279 | inside the envelope a slice is followed as far as the envelope reaches; outside it, only inwards and in full |
| PolicyLaws.DrainTold | src/minecraft_ai/policy_service.py:1225-1279 | what a drain emits and keeps: the envelope cuts only world motion of a body that tracks pitch, and what it cuts is forgotten |
| PolicyLaws.EnqueueTold | src/minecraft_ai/policy_service.py:1098-1173 | a prediction adds to the motion left over, unless that is of the other kind, which is dropped |
| PolicyLaws.ActBlocked | src/minecraft_ai/policy_service.py:245-263 | while the scene is blocked everything is let go of and the request stays outstanding |
| PolicyLaws.ActEnds | src/minecraft_ai/policy_service.py:264-322 | a late answer costs the hold and the queued motion, anything broken the worker too, and a release that does not fit costs the worker unless the deadline was reported |
| PolicyLaws.ActHoldsOn | src/minecraft_ai/policy_service.py:1281-1324 | a hold: the tokens held, until when, the motion drained and the action returned, exactly |
| PolicyLaws.ActApplies | src/minecraft_ai/policy_service.py:1098-1173 | an applied prediction: its tokens are held for the horizon from the reading, its motion goes through the queue, its sighting replaces the last |
| PolicyLaws.ResetTold | src/minecraft_ai/policy_service.py:387-423 | what a reset leaves, field by field, for every way its write can end |
| PolicyTiming.Asking | src/minecraft_ai/policy_service.py:1005-1054 | a request is due one deadline after the reading at which it is written, and what is held is held on until then at most |
| PolicyTiming.AskedAndAnswered | src/minecraft_ai/policy_service.py:292-313 | over two calls: a prediction that one action can carry is held exactly if it took no longer than the deadline and the reading at output is less than one deadline after the reading at submission; otherwise everything is let go of |
| PolicyTiming.AskedAndUnanswered | src/minecraft_ai/policy_service.py:271-277 | over two calls: while the worker is silent a hold is kept exactly while the reading is at most one deadline after the submission and its own time is not over |
| PolicyTiming.HeldUntilDue | src/minecraft_ai/policy_service.py:1281-1324 | with one reading per tick: exactly before the request is due |
| PolicyTiming.AnsweredAndHeld | src/minecraft_ai/policy_service.py:1281-1324 | over two calls: a prediction is held until its horizon is over, or until the next request has prolonged it, and not if that cannot be written |
| RouterOptions.BodiesInOrder | src/minecraft_ai/policy_service.py:2276-2284 | the bodies are exactly those of the routes, primary first |
| RouterOptions.ActGoesOn | src/minecraft_ai/policy_service.py:1490-1504 | while its option is bound a body acts alone: no other body is touched |
| RouterOptions.ActBinds | src/minecraft_ai/policy_service.py:1506-1541 | the first option goes to the active body without a reset, if that is the one it asks for and the observer does not raise |
| RouterOptions.ActTakesOver | src/minecraft_ai/policy_service.py:1506-1541 | any other option takes over: the active body is reset without using a sequence number, and the body the option asks for acts and lets go for it |
| RouterOptions.ActWaits | src/minecraft_ai/policy_service.py:1479-1489 | an option whose body is not ready unbinds the one before it, and the active body lets go unless it is itself loading |
| RouterOptions.ResetReaches | src/minecraft_ai/policy_service.py:1598-1615 | a reset of all bodies resets them in order up to the first that raises, and touches no other |
| RouterOptions.ResetUnbinds | src/minecraft_ai/policy_service.py:1598-1633 | a reset that returns leaves no option bound and the primary body active; one that raises, and a release for observation, leave both alone |
| RouterOptions.ResetThenActBinds | src/minecraft_ai/policy_service.py:1506-1541 | after a reset that returns, the next option is bound again, even the same one, and the body it asks for acts |
| RouterOptions.BoundBodyServes | src/minecraft_ai/policy_service.py:1543-1557 | over every run: while an option is bound the active body is the gui body at gui level if there is one, the raw motion body at raw or motion level if there is one, and otherwise the primary |
| SafetyLaws.KindsTold | src/minecraft_ai/safety.py:134-145 | which kinds of input an action needs |
| SafetyLaws.LimitsTold | src/minecraft_ai/safety.py:95-132 | the limits of the action constructor, and when a held set fits in one release |
| SafetyLaws.PressTold | src/minecraft_ai/safety.py:189-196 | which tokens are down after an action |
| SafetyLaws.BindTold | src/minecraft_ai/bridge/client.py:99-122 | how binding ends: it never moves a key, and a raise leaves the old, the new or no binding |
| SafetyLaws.ReleaseTold | src/minecraft_ai/bridge/client.py:152-161 | a release is confirmed exactly when an open backend completes it |
| SafetyLaws.ClearTold | src/minecraft_ai/bridge/client.py:163-180 | clearing ends unbound unless it raises |
| SafetyLaws.RevokeTold | src/minecraft_ai/safety.py:438-457 | a revocation drops the lease, keeps the sequence frontier, and reports the first of its two calls that raised |
| SafetyLaws.IssueTold | src/minecraft_ai/safety.py:233-272 | an issue returns exactly when its arguments are in range, releasing and clearing complete and binding does not raise; the lease then carries exactly the target, kinds, duration limit and first sequence asked for, expires one ttl after the reading at which it was granted, and nothing is held |
| SafetyLaws.RenewReturns | src/minecraft_ai/safety.py:274-302 | a renewal returns exactly when the live lease is named before it expires and can be bound; then only its expiry changes, to one ttl after its own reading |
| SafetyLaws.ApplyReturns | src/minecraft_ai/safety.py:304-361 | an action is accepted exactly when the live lease is named before it expires, its sequence is new, its duration and kinds are among those asked for, and the backend calls complete; then exactly its presses and releases are made |
| SafetyLaws.ApplyRefused | src/minecraft_ai/safety.py:318-336 | each refusal and its reason, the first that applies |
| SafetyLaws.ReleaseReturns | src/minecraft_ai/safety.py:363-409 | a release returns exactly when the live lease is named before it expires and the release goes through; with a refresh, only if it was not swallowed |
| SafetyLaws.ExpiryTold | src/minecraft_ai/safety.py:411-418 | the watchdog revokes exactly a live lease whose time is over |
| SupervisorLaws.EnteredFrom | src/minecraft_ai/safety.py:24-57 | the lifecycle table, by where each phase is entered from |
| SupervisorLaws.FailTold | src/minecraft_ai/supervisor.py:816-829 | what a failure leaves: the fault phase and its reason, a withdrawal and a revocation, and the error of the status that could not be published |
| SupervisorLaws.DisarmTold | src/minecraft_ai/supervisor.py:801-814 | what a disarm leaves, and which reason it gives |
| SupervisorLaws.PauseTold | src/minecraft_ai/supervisor.py:354-366 | what a pause does in each phase |
| SupervisorLaws.GuardedTold | src/minecraft_ai/supervisor.py:652-659 | a motor-facing call goes on exactly when neither latch is set, and otherwise fails or disarms before it refuses |
| SupervisorLaws.StartReturns | src/minecraft_ai/supervisor.py:336-348 | when a start returns, and what it leaves at each of its exits |
| SupervisorLaws.ReplaceReturns | src/minecraft_ai/supervisor.py:386-412 | a backend is replaced exactly when the supervisor is idle and the old one is revoked, released and closed without an error; the camera ledger survives only if asked |
| SupervisorLaws.ArmReturns | src/minecraft_ai/supervisor.py:627-650 | an arm returns exactly when neither latch is set, the supervisor is idle and every backend call and the publication work; the lease allows all three kinds for a quarter of a second each, from sequence zero, for three seconds from its grant |
| SupervisorLaws.ActivateReturns | src/minecraft_ai/supervisor.py:782-799 | an activation returns running exactly when neither latch is set, the supervisor is armed with a lease that has not expired, and the status is published |
| SupervisorLaws.RequireRunningTold | src/minecraft_ai/supervisor.py:767-780 | a runtime call gets through exactly when neither latch is set, the supervisor runs and the live lease is named before it expires |
| SupervisorLaws.ApplyActionReturns | src/minecraft_ai/supervisor.py:668-719 | an action is accepted, and the call returns, exactly when all of its conditions hold at its readings; it moves the camera ledger exactly if it moves the world camera |
| SupervisorLaws.ArmedAndActivatedActs | src/minecraft_ai/supervisor.py:627-799 | after an arm and an activation an action is accepted if and only if the latches are clear, the lease is named, the readings come before its expiry, the action is well formed and takes at most 250 ms, and the backend acts and takes the refreshed lease |
| TransactionLaws.ReleaseCallReturns | src/minecraft_ai/supervisor.py:721-736 | a release of all inputs returns exactly when the call gets through, the open backend confirms it and takes the refreshed lease, and the status is published |
| TransactionLaws.SendChatReturns | src/minecraft_ai/supervisor.py:738-765 | a chat call returns exactly when it gets through, the text is valid, and the typing goes through between two renewals with neither latch set |
| TransactionLaws.ChunksReturn | src/minecraft_ai/supervisor.py:502-528 | all chunks of a calibration go through exactly when no latch is seen around any, the lease is live at each, renewed at every twenty-fifth, and no backend call raises |
| TransactionLaws.CalibrateReturns | src/minecraft_ai/supervisor.py:462-562 | a calibration returns exactly when it is admitted, every publication and backend call works, every chunk goes through, and no latch is seen |
| TransactionLaws.CalibrateActs | src/minecraft_ai/supervisor.py:505-523 | however a calibration ends, what acted is the first so many deltas of its gain, in order, each by one motion of the pitch axis alone, and all of them if it returns |
| TransactionLaws.ProbeReturns | src/minecraft_ai/supervisor.py:564-625 | a probe returns exactly when it is admitted and works, and then has made exactly one motion along one axis |
| TransactionLaws.WatchdogTold | src/minecraft_ai/supervisor.py:918-929 | a turn of the serve loop: an emergency fails and stops, a pause disarms unless it has been served, an expired lease fails |
| TransactionLaws.CloseRuntimeTold | src/minecraft_ai/supervisor.py:949-974 | leaving the serve loop: which of its errors is reported, and what is left whichever cleanups raise |
| StackStarts.ServiceStarts | src/minecraft_ai/stack_lifecycle.py:526-651 | a service starts exactly when it may be reused and is healthy, or, by its mode, is spawned, announced, identified and ready in time; what it adds to the records and to what is live |
| StackStarts.ServiceTold | src/minecraft_ai/stack_lifecycle.py:526-651 | however it ends: its record is there exactly if it was announced, and on disk exactly if that was written |
| StackStarts.ServiceLive | src/minecraft_ai/stack_lifecycle.py:598-651 | what is live however it ends: a start command remains exactly if it must go and is not confirmed gone |
| StackStarts.ServicesStart | src/minecraft_ai/stack_lifecycle.py:435-437 | starting the services succeeds exactly when each comes in its turn, and their records then follow the order |
| StackStarts.LaunchReturns | src/minecraft_ai/stack_lifecycle.py:411-483 | a transaction returns exactly when the manifest is written, every service comes in its turn, and the manifest is written once more |
| StackStarts.StartReturns | src/minecraft_ai/stack_lifecycle.py:376-483 | a start returns exactly when the stack is up already, or what an earlier one left is settled and its own transaction then returns |
| StackStarts.UndoTold | src/minecraft_ai/stack_lifecycle.py:700-721 | what undoing one record does, by the answers to each of its halves |
| StackStarts.AbandonTold | src/minecraft_ai/stack_lifecycle.py:438-475 | what a failed transaction writes and reports |
| StackStarts.RecoverTold | src/minecraft_ai/stack_lifecycle.py:378-409 | what settling an earlier transaction leaves at each of its exits |
| StackStarts.StopReturns | src/minecraft_ai/stack_lifecycle.py:485-510 | a stop returns exactly when there is nothing to stop, or everything the manifest owns is confirmed gone and both writes worked |
| RequestHistory.HistoryTells | src/minecraft_ai/model_requests.py:108-259 | over every run: the request is what its log of calls and answers says: an attempt started before the deadline at the reading of its start call, and ended with the reading and the error of the first finish call for it that returned |
| RequestHistory.FinishAnswers | src/minecraft_ai/model_requests.py:162-176 | when a finish call returns and when it raises, by the log alone |
| RequestHistory.AcceptAnswers | src/minecraft_ai/model_requests.py:199-248 | when the callback runs and what an acceptance answers, by the log alone |
| RequestHistory.RejectAnswers | src/minecraft_ai/model_requests.py:189-197 | what a rejection answers, by the log alone |
| RequestHistory.PublicationsAreEarned | src/minecraft_ai/model_requests.py:225-227 | over every run: a publication selects an attempt whose finishing call named no error, when every started attempt had ended |
| RequestHistory.TextTold | src/minecraft_ai/model_requests.py:21-23 | which names and reasons are refused |
| PlanningLaws.BatchesSuffice | src/minecraft_ai/planning.py:217-263 | the batches of a method are the fewest, but at least one, that yield the quantity |
| PlanningLaws.BeforeTold | src/minecraft_ai/planning.py:275-282 | which of two options comes first |
| PlanningLaws.ExpandGivesOptions | src/minecraft_ai/planning.py:175-215 | an expansion gives exactly options, best first, and one for every method: what an option is, is told from the knowledge graph, with the quantity of every requirement |
| PlanningLaws.PlanIsBestOption | src/minecraft_ai/planning.py:137-173 | the plan chosen is an option that no other comes before |
| PlanningLaws.FlattenIsSchedule | src/minecraft_ai/planning.py:285-329 | the steps of a tree are those of the best option of each slot, in order, and then its own, which waits for the last step of each |
| PlanningLaws.DependencyPlanTold | src/minecraft_ai/planning.py:265-272 | the plan of a goal is the schedule of a best option for one of its target |
| PlanGraphLaws.RankTold | src/minecraft_ai/plan_graph.py:280-301 | another skill stands in if it shares an effect, or else if it is named for recovery |
| PlanGraphLaws.CandidatesByRank | src/minecraft_ai/plan_graph.py:280-301 | candidates go by rank, and those of one rank by name |
| PlanGraphLaws.BindingTold | src/minecraft_ai/plan_graph.py:270-277 | a step names the first skill whose name reads the same |
| PlanGraphLaws.PlanTold | src/minecraft_ai/plan_graph.py:235-267 | the nodes of a new plan, its alternatives and its order |
| PlanGraphLaws.NothingDone | src/minecraft_ai/plan_graph.py:119-132 | a call for a skill that the current node neither names nor reads like does nothing |
| PlanGraphLaws.SucceededTold | src/minecraft_ai/plan_graph.py:102-117 | a success marks the node that names the skill or reads like it, or one that names none where that is allowed, and moves on |
| PlanGraphLaws.NextTold | src/minecraft_ai/plan_graph.py:157-198 | the first usable alternative takes a place, or else the first alternative of the skill in the library that was not given up |
| PlanGraphLaws.BlockTold | src/minecraft_ai/plan_graph.py:119-155 | what a block leaves at the cursor, in the nodes and in the order |
| CompactionLaws.LastOtherIsLast | src/minecraft_ai/native_world_model.py:564-577 | what goes is the last that may go |
| CompactionLaws.SectionGoes | src/minecraft_ai/native_world_model.py:550-585 | the first section in order that has something to lose loses its last row that may go, and nothing else changes |
| CompactionLaws.OthersGo | src/minecraft_ai/native_world_model.py:586-632 | after the sections: the last entry, then the last description or competence, then the last unprotected fact, then what is too long |
| ExecutorLaws.StepTold | src/minecraft_ai/agent/daemon_executor.py:23-78 | what one step does to each item |
| ExecutorLaws.StepMovesOn | src/minecraft_ai/agent/daemon_executor.py:54-107 | what one step does to the queue, the flags and the worker |
| ExecutorLaws.FuturesTell | src/minecraft_ai/agent/daemon_executor.py:23-31 | over every run: a future is settled with an outcome exactly if its callback ended with it, and cancelled exactly if it was cancelled while pending, by itself or by a shutdown that cancels |
| ExecutorLaws.AcceptedBefore | src/minecraft_ai/agent/daemon_executor.py:54-78 | over every run: exactly what was submitted before the first shutdown is accepted |
| PolicyLaws.RefusesStale | src/minecraft_ai/policy_service.py:252-254 | a call with a sequence number that is not new raises and changes nothing |
| PolicyLaws.NotifyTold | src/minecraft_ai/policy_service.py:357-366 | what an external release leaves, field by field |
| SafetyLaws.MonotoneTold | src/minecraft_ai/safety.py:155-158 | the one assumption about the clock: it never runs backwards |
| SafetyLaws.CloseTold | src/minecraft_ai/bridge/client.py:182-192 | a closed backend is unbound unless closing raised |
| SafetyLaws.ApplyFails | src/minecraft_ai/safety.py:304-361 | how an action ends early otherwise: bad arguments change nothing, another lease or a failing backend revokes |
| SafetyLaws.ReleaseFails | src/minecraft_ai/safety.py:363-409 | how a release fails, and the reason its revocation gives |
| SupervisorLaws.NewIsStopped | src/minecraft_ai/supervisor.py:304-334 | what a new supervisor is |
| SupervisorLaws.ResumeTold | src/minecraft_ai/supervisor.py:368-384 | what a resume does in each phase |
| SupervisorLaws.ArmRefused | src/minecraft_ai/supervisor.py:627-650 | how an arm is refused: only a pause touches the lease |
| SupervisorLaws.ActivateRefused | src/minecraft_ai/supervisor.py:782-799 | how an activation is refused: without a live lease it revokes and then fails |
| SupervisorLaws.RenewCallReturns | src/minecraft_ai/supervisor.py:652-666 | a heartbeat renews exactly when neither latch is set and the supervisor is armed or running |
| SupervisorLaws.ApplyActionFails | src/minecraft_ai/supervisor.py:668-719 | how an action ends that is not accepted: malformed ones and lost routes fail the supervisor, other refusals cost the lease |
| TransactionLaws.ReleaseCallFails | src/minecraft_ai/supervisor.py:721-736 | how a release of all inputs fails |
| TransactionLaws.ChatFails | src/minecraft_ai/supervisor.py:738-765 | how chat fails: in the first renewal, the typing, at a latch or in the second renewal |
| TransactionLaws.WatchExpiryTold | src/minecraft_ai/supervisor.py:918-929 | an expired lease is revoked and then fails the supervisor |
| TransactionLaws.RunServesAll | src/minecraft_ai/supervisor.py:976-1000 | every command of a run is served, by the supervisor that the commands before it left |
| StackStarts.RollbackTold | src/minecraft_ai/stack_lifecycle.py:697-722 | records are undone newest first, past any problem |
| StackStarts.RunMakesAll | src/minecraft_ai/stack_lifecycle.py:376-510 | every call of a run is made on the host that the calls before it left |
| RequestHistory.StartAnswers | src/minecraft_ai/model_requests.py:148-160 | when an attempt is started and which number it gets, by the log alone |
| RequestHistory.CompleteAnswers | src/minecraft_ai/model_requests.py:178-187 | when a computation is complete, by the log alone |
| RequestHistory.NoticeAnswers | src/minecraft_ai/model_requests.py:250-259 | when the discard reason is handed out, by the log alone |
| RequestHistory.ShaTold | src/minecraft_ai/model_requests.py:26-28 | which digests are accepted |
| PlanGraphLaws.AlternativesTold | src/minecraft_ai/plan_graph.py:280-301 | the alternatives of a skill are the first four candidates of its first entry, or fewer |
| PlanGraphLaws.RunningTold | src/minecraft_ai/plan_graph.py:94-100 | running marks exactly a node that names the skill itself |
| PlanGraphLaws.RunCountsAll | src/minecraft_ai/plan_graph.py:71-155 | every call of a run is made and counted |
| Calibration.RoundIsNearest | src/minecraft_ai/supervisor.py:214-215 | rounding gives a nearest integer, and of two nearest ones the even one |
| Calibration.SplitInFullSteps | src/minecraft_ai/supervisor.py:201-209 | all chunks but the last are as long as they may be |

## Left out

- RouterTracksOneCamera: states the pitch equation for bodies with a pitch limit; a body without one does not track pitch.
- RouterAndSupervisorAgree: speaks of runs in which the agent delivers the router's actions unchanged and stops at the first delivery that is refused or fails.
- NextAlternative: takes node ids as structured values; the source spells them as text, where a skill id containing ":alt:" could collide.
- ScheduleCostsItsEstimate: adds real numbers; the source adds floating-point ones.
- CompactPlannerPrompt: starts from a context and from the requested and mandatory ids already computed (native_world_model.py 479-542).
- AtMostOncePublication: names attempts by position instead of the text the source derives from it.
- Retirement, draining, the final wait of `close`, and the identity checks around a worker process; `close` itself is kept.
- Whether a worker is hung, how long a hold lasts and whether an external output is admitted are inputs of a tick.
- Warm-up threads: a body is ready, loading, or fails to warm up.
- What the grounding observer is asked and answers, provenance records, metrics and status reports; the observer's exceptions are answers of the oracle.
- The absolute cursor of an action on the policy side; the gate treats it as mouse input.
- The control socket, its commands and the agent process behind pause and resume; `resume` of the supervisor is kept.
- Text of revocation and fault reasons beyond what the code branches on, and the session and backend ids of a lease.
- Linux, Windows and procfs details of spawning, identifying and killing processes: each is one answer of the oracle, and the stack's file lock is taken as held.
- Command, environment and probe validation of service specifications, and the plan digest, which is a number.
- Sanitising plan steps and normalising text: both are parameters of the plan graph.
- The skill library and the knowledge graph, beyond which skills and methods they list; a method is taken to yield its own target from positive amounts of nodes the graph has.
- Bridge messages and acknowledgements: a bridge is a backend that can close in any call.
- Blocking: `shutdown` with a wait and `wait_closed` join a thread and change nothing else.
