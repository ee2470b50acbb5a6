# PyEMS control kernel

A Dafny model of the control kernel of PyEMS, a PLC-style power controller, and proofs of what
it guarantees. The model follows the program's layers:

- **Setpoint arbitration.** Controllers post standing claims on a board (`Requests.dfy`,
  `Board.dfy`); one arbiter a channel intersects them in rank order, picks a target and applies
  deadband and ramp (`Arbitration.dfy`, `Allocator.dfy`, `Setpoints.dfy`). The scan cycle reads,
  runs the priority-0 interlock and the contained controllers, arbitrates and publishes
  (`Safety.dfy`, `Compliance.dfy`, `Scan.dfy`, `Scheduler.dfy`); `Ledger.dfy` ties whole runs of it
  to the log of what was posted; alarms latch in a journal (`Journal.dfy`).
- **Control laws around it.** Export cap, headroom, generation gate (`Controllers.dfy`), the PID
  and its two regulation modes (`Pid.dfy`, `ConnectionPower.dfy`), closed over the simulated unit
  (`Plant.dfy`, `ExportLoop.dfy`).
- **The concurrent I/O cache.** `CachedDriver.dfy` holds one method a critical section;
  `Interleaving.dfy` runs the two threads in every order. `SetpointFlow.dfy`,
  `CommandFlow.dfy`, `Delivery.dfy`, `ReadBack.dfy` and `ReadFlow.dfy` prove what that keeps, and
  `SharedStore.dfy` that each condition they take is needed. `Cadence.dfy` says when a setpoint is
  written again and when not, `KeepAlive.dfy` is the timing of
  healthy operation, `Composite.dfy` the reconnect machine below.
- **The two threads together.** `Publication.dfy` follows one setpoint from its command to its
  publication past the worker; `Weaving.dfy` and `Assembled.dfy` run whole scan cycles on the live
  store with the worker's steps anywhere in between, and `FailClosed.dfy` proves what the
  interlock guarantees there, down to the device. `Verdict.dfy` tells from the run when it trips.
- **Codec and operator commands.** `Codec.dfy`, `ModbusDevice.dfy` and `SimDevice.dfy` are driver
  and simulated device over 16-bit words; `Commands.dfy` is the command document and the hard
  switch.

Objects that the program updates in place are classes here; each of their methods is proved equal
to a function of the old state, and the theorems over whole runs are lemmas about those functions.
Watts, seconds and gains are exact reals; infinities are the values of `Num.Ext`; a raised error
is a false result, or the failed list it would name. A contained controller is whatever sequence
of posts, withdrawals, writes and raises it produces, so the interlock theorems hold for any.

`dafny verify dfyconfig.toml` checks the project.

## Where code and documentation part

The model follows the code.

- `src/pyems/drivers/cached.py` calls the worker's store private (line 106), but it is built from
  the same channel objects that `channels()` hands out (lines 64, 71 and 149) and that
  `src/pyems/ems.py` (lines 811 and 856) puts into the live state. `Interleaving.Layout.shared`
  says which of the two holds, and the theorems hold for either, each under a condition on the run
  that a private store always meets. No setpoint is lost and the last command stands as long as the
  foreground changes no register between its loading and its writing; no read-back is written as
  long as no register is published that was polled since it was last commanded or loaded; every
  cached measurement is from a good poll as long as the foreground's copy overwrites no differing
  reading before its commit. `SharedStore` proves each condition needed at every state, and gives
  the interleavings that break it. The send-history account, the order and number of command
  writes, that only commands write command registers, the ages, and that status word, trip and
  claims agree hold in either layout without a condition.
- For the same reason a trip, and the fail-closed start, are not always published in the cycle that
  commands them: a flush that took the setpoint's old value can load it, or a poll can read the
  register's old content, between the command and `write_setpoints` (`src/pyems/scheduler.py`, line
  143). A tripped cycle publishes the safe value if and only if the last value so loaded or read, if
  any, is the safe one (`Assembled.TrippedRunPublishes`, `FailClosed.SafeUntilAllRead`); every start
  does if and only if the store is private (`FailClosed.SafeStartIffPrivate`). `Publication.PolledReplacesPin` and
  `Publication.OldFlushReplacesPin` are the two inputs that fail.
- `send_command` promises exactly one write a call. That holds if and only if no failed transaction
  had already written the register and no batch holds two commands for it
  (`Delivery.ExactlyOnceIff`, and command by command `Delivery.WrittenOnceIff`): a failed
  transaction is repeated whole, and two commands for one tag in a batch become one write.
- `PIDGains.tracking_time` is 0 for ki > 0 with kp = 0 and no tt, and then there is no anti-windup
  at all (`Pid.BoundedIffFeedback`).
- `validate_setpoint_keepalive` means to keep the watchdog fed; a configuration does so if and only
  if the watchdog waits at least rewrite + 2 polls (`KeepAlive.NeverStarvesIff`), which the half
  period it asks for gives if and only if the rewrite period is at least two polls.
- The alarm key of a rejected request is not injective in channel and requester
  (`Arbitration.AlarmKeysApart`), and then one journal cannot tell two channels' rejections
  (`Arbitration.OneJournalTellsIff`); the allocator's alarm theorem takes channels whose keys are
  apart.
- The resolved value may lie outside the intersected range, through deadband and ramp
  (`Setpoints.InWindowIff` says exactly when); only the device envelope is invariant.
- Priority 0 is documented as the interlock's own, which only two controllers enforce; a rival there
  defeats a trip if and only if what outranks the interlock leaves out the safe value
  (`Scan.TripLandsIff`).

## Model

| member | source | states |
|---|---|---|
| Requests.SortCorrect | src/pyems/allocation/request.py:136 | the ranking is a permutation of the live claims in which nothing is outranked by a later claim |
| Requests.PostingOrderIrrelevant | src/pyems/allocation/request.py:115-137 | claims of distinct requesters rank the same whatever order they were posted in, and strictly |
| Requests.SharedKeyKeepsPostingOrder | src/pyems/allocation/allocator.py:101-102 | two claims under one (priority, requester) key keep their order: the pure API alone, without the board, does depend on it |
| Board.RequestBoard.Post | src/pyems/allocation/request.py:91-104 | a post replaces the requester's claim on that channel, stamped with the tick or the given time; an unknown channel is refused and nothing changes |
| Board.RequestBoard.Withdraw | src/pyems/allocation/request.py:106-113 | a withdrawal removes just that requester's claim |
| Board.RequestBoard.ValidRequests | src/pyems/allocation/request.py:115-137 | returns the unexpired claims in rank order and leaves exactly those on the channel |
| Board.Sweep | src/pyems/allocation/request.py:122-135 | one pass over the dictionary in any order separates live from expired claims, without repetition |
| Board.BoardMatchesLog | src/pyems/allocation/request.py:91-137 | after any chronological posts, withdrawals and queries a claim on the board is its requester's latest logged post, and a logged post missing from the board has expired |
| Board.QueryAnswersFromLog | src/pyems/allocation/request.py:115-137 | a query answers from the log as if nothing were ever purged: ranked, and a request is in it if and only if it is its requester's latest post, not withdrawn since and not expired |
| Board.AcceptedIff | src/pyems/allocation/request.py:42-63 | a request is accepted if and only if its priority is not negative, some value meets its range and its target, and it is live when posted |
| Arbitration.WindowIsMeet | src/pyems/allocation/allocator.py:104-118 | the intersected range holds exactly the envelope's points that every honored range contains |
| Arbitration.WindowNonEmpty | src/pyems/allocation/allocator.py:104-118 | intersection never empties the range or leaves the envelope |
| Arbitration.HonoredIsGreatest | src/pyems/allocation/allocator.py:104-118 | the honored set shares an operating point, and every other set that does differs from it first at a rank that only the honored set accepts: it is the lexicographically greatest |
| Arbitration.RejectionHasCulprit | src/pyems/allocation/allocator.py:115-118 | a rejected request is disjoint from the envelope or from one single honored request of higher rank |
| Arbitration.LowerRanksNeverMatter | src/pyems/allocation/allocator.py:104-118 | requests of lower rank change neither a higher one's verdict nor the range left to it |
| Arbitration.FirstTargetMember | src/pyems/allocation/allocator.py:134-139 | the target comes from the best-ranked honored request that states one |
| Arbitration.MarksAreVerdicts | src/pyems/allocation/allocator.py:109-126 | what is remembered of each requester after a cycle is this cycle's verdict on its request |
| Arbitration.NotedThenForgotten | src/pyems/allocation/allocator.py:119-126 | forgetting the requesters not seen leaves just this cycle's verdicts, whatever was remembered before |
| Arbitration.AlarmKeysApart | src/pyems/allocation/allocator.py:183-211 | two channels can produce one alarm key if and only if one dotted channel name begins the other |
| Arbitration.OneJournalTellsIff | src/pyems/allocation/allocator.py:183-211 | one journal can show every pair of two channels' verdicts if and only if neither dotted channel name begins the other |
| Arbitration.ChannelArbiter.NoteHonored | src/pyems/allocation/allocator.py:183-211 | raises on a new rejection, clears on a renewed acceptance, so the alarms keep agreeing with what was noted; foreign alarms are untouched |
| Arbitration.ChannelArbiter.ForgetAbsent | src/pyems/allocation/allocator.py:119-126 | absent requesters are forgotten and their standing alarms cleared |
| Arbitration.ChannelArbiter.Intersect | src/pyems/allocation/allocator.py:104-126 | the loop honors and remembers exactly what the greedy intersection accepts |
| Arbitration.ChannelArbiter.PickTarget | src/pyems/allocation/allocator.py:128-147 | target, owner and forced flag are those of the goal function on the ranked requests, which `Setpoints.TargetDecidesGoal`, `Setpoints.LastSetpointHeld` and `Setpoints.DefaultLands` pin down |
| Arbitration.ChannelArbiter.Approach | src/pyems/allocation/allocator.py:149-171 | deadband, then the asymmetric ramp, both bypassed when forced or on the first cycle |
| Arbitration.ChannelArbiter.Resolve | src/pyems/allocation/allocator.py:94-179 | returns and retains the value that moves by deadband and ramp towards that goal, remembers this cycle's verdicts and owner, keeps alarms and verdicts in agreement and other alarms alone |
| Allocator.MarkedRejectedIffDisjoint | src/pyems/allocation/allocator.py:183-211 | a requester is marked rejected if and only if its live request is ranked and shares no operating point with what higher ranks left |
| Allocator.CommandedFirstAt | src/pyems/allocation/allocator.py:240-246 | a pass commands each configured channel its own value, clamped to the channel, and changes no other tag |
| Allocator.PowerAllocator.Turn | src/pyems/allocation/allocator.py:240-246 | one arbiter's turn keeps every channel's alarms in agreement although they share a journal |
| Allocator.PowerAllocator.ResolveOne | src/pyems/allocation/allocator.py:240-246 | one channel: query the board, resolve, command the result |
| Allocator.PowerAllocator.Resolve | src/pyems/allocation/allocator.py:240-246 | the pass resolves each channel from the claims and setpoints it started with, purges the configured channels only and keeps all alarms in agreement |
| Setpoints.EnvelopeAlways | src/pyems/allocation/allocator.py:147-179 | over every run of request lists the setpoint stays inside the device envelope |
| Setpoints.GradientAlways | src/pyems/allocation/allocator.py:158-171 | over n cycles without a forced value the setpoint rises at most n up-steps and falls at most n down-steps, and so does its value clamped to any fixed bounds |
| Setpoints.InWindowIff | src/pyems/allocation/allocator.py:149-171 | the resolved value lies in the intersected range if and only if it is forced, or held by the deadband at a point inside, or a ramp step reaches the range |
| Setpoints.LeavesWindow | src/pyems/allocation/allocator.py:149-171 | concrete excursions: held above a new cap by the deadband, and stepping towards it by the ramp |
| Setpoints.MoveIsGlide | src/pyems/allocation/allocator.py:149-171 | deadband and ramp together stay, arrive, or take one full step towards the target |
| Setpoints.NoDeadbandIsSlew | src/pyems/control/ramp_rate.py:49-67 | with deadband 0 the arbiter follows every target sequence exactly as the plain ramp limiter does |
| Setpoints.RampRateLimiter.Step | src/pyems/control/ramp_rate.py:49-56 | one limiter step; a non-positive dt is refused and changes nothing |
| Setpoints.ApplyRampLimit | src/pyems/control/ramp_rate.py:59-67 | the list is the limiter's fold over the targets |
| Setpoints.ChaseConverges | src/pyems/allocation/allocator.py:149-171 | towards one target the setpoint moves monotonically, never past it, and needs as many cycles as steps fit into the gap |
| Setpoints.TargetStable | src/pyems/allocation/allocator.py:134-147 | moving towards the target does not move the target, not even when it is "hold last" |
| Setpoints.UnchangingConverges | src/pyems/allocation/allocator.py:128-179 | under unchanging requests the setpoint approaches monotonically, never overshoots, and after ceil(gap / step) cycles rests for good at the target or less than the deadband from it |
| Setpoints.TargetDecidesGoal | src/pyems/allocation/allocator.py:134-147 | the best accepted rank that states a target decides: the goal is the point of the intersected range next to it, and the target itself if and only if the envelope and every honored range contain it |
| Setpoints.LastSetpointHeld | src/pyems/allocation/allocator.py:140-147 | with claims but no honored target the goal is the point of the intersected range next to the last setpoint |
| Setpoints.DefaultLands | src/pyems/allocation/allocator.py:128-147 | without claims, and on the first cycle without a target, it is the point next to the default |
| Setpoints.PinDecides | src/pyems/allocation/allocator.py:128-147 | whoever is outranked by a pin inside the envelope cannot move the goal |
| Setpoints.PinnedConverges | src/pyems/controllers/generation_gate.py:58-77 | a disabled generation gate, while it is top-ranked, brings the unit to rest within the deadband of its floor in ceil(gap / step) cycles, however the lower requests change |
| Channels.CommandedWithinBounds | src/pyems/channels.py:35-39 | a commanded value ends inside the channel's bounds, is untouched if it was inside, and moves no other channel |
| Channels.SystemState.Set | src/pyems/channels.py:35-39 | commands clamp; unknown and read-only channels are refused and nothing changes |
| Channels.SystemState.ApplyDriverValue | src/pyems/channels.py:41-50 | observed values are recorded as they are, writable or not |
| Controllers.GridExportLimitController.Execute | src/pyems/controllers/grid_export_limit.py:84-107 | posts the export cap, and only an upper bound, under the controller's name |
| Controllers.SetpointHeadroomLimiter.Execute | src/pyems/controllers/setpoint_headroom.py:71-85 | posts measured production plus the larger of absolute and relative headroom as an upper bound |
| Controllers.GenerationGateController.Execute | src/pyems/controllers/generation_gate.py:58-83 | the pin stands if and only if generation is not allowed, and the active flag says so |
| Controllers.ClaimsStand | src/pyems/allocation/request.py:117-129 | a cap covers all powers up to it, a pin its own only, and both stand until they are replaced or withdrawn |
| ExportLoop.CapBoundsTarget | src/pyems/allocation/allocator.py:104-147 | a cap outranked by caps only bounds the target, whatever ranks below it asks for |
| ExportLoop.CapsNeverRaise | src/pyems/controllers/grid_export_limit.py:84-107 | caps alone never raise a setpoint: the goal stays at the last one if all of them allow it, and lies below it if not |
| ExportLoop.CapStep | src/pyems/allocation/allocator.py:104-171 | one cycle under a standing cap ends at or under it, within the deadband of it, or a full down-step closer |
| ExportLoop.ExcessStep | src/pyems/allocation/allocator.py:101-179 | one cycle under any load: the excess over load plus limit is below the deadband, or at least one down-ramp step less than what the present setpoint exceeds them by |
| ExportLoop.ExcessFollowsLoad | src/pyems/allocation/allocator.py:101-179 | on every run under a moving load the excess is below the deadband, or at most the last cycle's excess plus the load's drop less one down-ramp step |
| ExportLoop.ExcessDecays | src/pyems/controllers/grid_export_limit.py:84-102 | under constant load the excess falls by one ramp step a cycle to the deadband and stays there, whatever the resource and other claims do |
| ExportLoop.ExportWithinLimit | src/pyems/controllers/grid_export_limit.py:84-102 | an immediate unit exports at most limit + deadband after the cycles the ramp needs, at the end of every longer run |
| ExportLoop.LaggedExcessContracts | src/pyems/sim/plant.py:47-58 | a lagging unit's own excess contracts by the lag factor each cycle |
| ExportLoop.LimitReachable | src/pyems/controllers/grid_export_limit.py:92 | some production meets the limit if and only if load + limit is not negative: the cap clipped at 0 cannot do more |
| ExportLoop.HeadroomLeavesRoom | src/pyems/controllers/setpoint_headroom.py:71-85 | the headroom cap lies above production by exactly the larger of the absolute and the relative headroom, grows with it and holds back no unit that produces its setpoint to within the headroom |
| ExportLoop.HeadroomHolds | src/pyems/controllers/setpoint_headroom.py:71-85 | while production stays at or below some power the setpoint comes down to that power's headroom, within the deadband, one ramp step a cycle, whatever else is claimed |
| Plant.RespondApproaches | src/pyems/sim/plant.py:47-58 | the unit's power moves towards its goal, never past it and never out of its rating, and rests only there |
| Plant.GoalIsMost | src/pyems/sim/plant.py:47-52 | the unit heads for the most its resource, its setpoint and its rating let it produce, and for nothing while it is stopped |
| Pid.PIDController.Step | src/pyems/control/pid.py:90-111 | one PID sample of the law the lemmas below are about; dt <= 0 is refused and changes nothing |
| Pid.PIDController.TrackAppliedOutput | src/pyems/control/pid.py:78-88 | external saturation is fed back, in the share that `Pid.TrackingClosesGap` gives in seconds; dt <= 0 is refused |
| Pid.PidLaw | src/pyems/control/pid.py:90-111 | over any run of samples within the output bounds the output is kp times the error, the seed plus ki dt times the sum of all errors, and the derivative term |
| Pid.DerivativeFollows | src/pyems/control/pid.py:113-129 | from one sample to the next the derivative term d goes to d1 with T (d1 - d) + dt d1 = kd times the movement in between, for the filter time constant T = kd / (kp n), 0 without a filter: against the movement of the measurement, or with that of the error |
| Pid.NoSetpointKick | src/pyems/control/pid.py:118-121 | on the measurement no setpoint change reaches the derivative term, and under an unmoved setpoint both forms agree |
| Pid.NoIntegralPart | src/pyems/control/pid.py:84-104 | without an integral part neither saturation nor tracking moves the integral |
| Pid.TrackingTimeIs | src/pyems/control/pid.py:23-33 | the tracking time is the given one; else the geometric mean of integral and derivative time, the integral time, or 1 s, as the gains have a derivative or an integral part |
| Pid.FeedbackInSeconds | src/pyems/control/pid.py:131-134 | one sample feeds back the share dt over the tracking time of the gap, all of it from one tracking time on, none without one |
| Pid.TrackingClosesGap | src/pyems/control/pid.py:78-88 | n samples of tracking close a standing gap by the factor (1 - dt / tracking time)^n |
| Pid.RestsAtExcess | src/pyems/control/pid.py:90-134 | under a constant error a saturated integrator is at rest if and only if its demand exceeds the bound by ki times the error times one tracking time, whatever the sample time, or one sample, if longer |
| Pid.ResetIsBumpless | src/pyems/control/pid.py:61-68 | nothing before a reset shows after it: no derivative kick, and at the setpoint the first output is the seed |
| Pid.BetaRange | src/pyems/control/pid.py:131-134 | the fed-back fraction lies in [0, 1] and is positive if and only if the tracking time is |
| Pid.FeedbackCondition | src/pyems/control/pid.py:23-33 | without derivative action the tracking time is positive unless ki > 0, kp <= 0 and no positive tt is given |
| Pid.TrackThenStepBounded | src/pyems/control/pid.py:78-111 | tracking and then stepping keeps one explicit bound on the integral, whatever was applied within the gap |
| Pid.BoundedIffFeedback | src/pyems/control/pid.py:90-134 | under a constant error a saturated integrator is bounded if and only if the tracking time is positive |
| ConnectionPower.ClaimsAreAccepted | src/pyems/controllers/connection_point_power.py:126-188 | neither mode builds a request whose own validation would refuse it |
| ConnectionPower.ClaimsStand | src/pyems/controllers/connection_point_power.py:126-188 | the export law claims the powers between its floor and its cap, the import law those from its floor on, and both claims stand until they are replaced or withdrawn |
| ConnectionPower.RequestRemembered | src/pyems/controllers/connection_point_power.py:136-138 | what is remembered as requested, to be fed back against what the arbiter applies, is the target of the claim, and when it was posted |
| ConnectionPower.ConnectionPointPowerController.TrackApplied | src/pyems/controllers/connection_point_power.py:85-95 | the applied setpoint is fed back only once a request and a positive time have passed |
| ConnectionPower.ConnectionPointPowerController.Trim | src/pyems/controllers/connection_point_power.py:116-124 | one PID step under output bounds that keep the target inside the claim |
| ConnectionPower.ConnectionPointPowerController.Regulate | src/pyems/controllers/connection_point_power.py:97-138 | the export-limit law, which the following rows pin down: next controller state and the claim |
| ConnectionPower.ConnectionPointPowerController.ExecuteExport | src/pyems/controllers/connection_point_power.py:97-138 | reads the three tags, regulates by that law, posts the claim |
| ConnectionPower.ConnectionPointPowerController.ExecuteImport | src/pyems/controllers/connection_point_power.py:150-201 | inside the limit: withdraw and reset; outside: regulate and post a floor |
| ConnectionPower.ClaimKeepsLimits | src/pyems/controllers/connection_point_power.py:103-108 | the claimed range holds exactly the productions that keep the connection point within the limits, or that are as near as production can come |
| ConnectionPower.FirstRequestMeetsAim | src/pyems/controllers/connection_point_power.py:110-126 | a unit that produces the first request puts the connection point at its aim, -exportLimit or the import limit while that is exceeded, if and only if the claim holds that power, and as near as the claim allows if not |
| ConnectionPower.TrimFollowsExcess | src/pyems/controllers/connection_point_power.py:116-126 | the request is that power plus the PI of what the connection point exceeds its aim by, cut to the claim, and the integral takes the excess up while nothing is cut |
| ConnectionPower.RestsAtAim | src/pyems/controllers/connection_point_power.py:110-126 | while nothing is cut and the last request was applied, the integral rises if and only if the connection point is above its aim, and rests if and only if it is at it |
| ConnectionPower.ImportRequestMeetsLimit | src/pyems/controllers/connection_point_power.py:155-190 | import mode is at work if and only if more than limit and deadband is imported, and forgets its integral if not; a unit that produces its request then imports no more than the limit, the first request exactly the limit if production is needed for it |
| ConnectionPower.ImportTrimFollowsExcess | src/pyems/controllers/connection_point_power.py:169-179 | the import request is what brings the connection point to the limit, plus the PI of the excess over it where that is positive |
| ConnectionPower.ExportIntegralBounded | src/pyems/controllers/connection_point_power.py:97-138 | over every run of export-limit regulation the integral keeps one explicit bound |
| ConnectionPower.ImportIntegralBounded | src/pyems/controllers/connection_point_power.py:150-201 | in import-limit mode, where the output is unbounded above, the integral never exceeds p_max + ki * E * dt / beta, and has an explicit lower bound |
| ConnectionPower.ArbiterBoundsImportIntegral | src/pyems/controllers/connection_point_power.py:146-190 | closed around the arbiter, whatever else is claimed, its envelope alone bounds the import law's integral |
| ConnectionPower.ImportNeedsFeedback | src/pyems/controllers/connection_point_power.py:85-97 | fed back its own requests in place of the applied setpoint, the import law's integral exceeds every bound, whatever its tracking time |
| Journal.EventJournal.RaiseAlarm | src/pyems/events.py:114-148 | a new alarm latches with one raised line; a standing one changes nothing |
| Journal.EventJournal.Clear | src/pyems/events.py:150-175 | a standing alarm is released with one cleared line of its own severity; an absent one changes nothing |
| Journal.EventJournal.ActiveAlarms | src/pyems/events.py:177-185 | the banner, oldest first, is what replaying the file shows |
| Journal.ReplayUnique | src/pyems/events.py:114-175 | no file the journal can write has one alarm standing twice |
| Journal.LinesAlternate | src/pyems/events.py:114-175 | per alarm, raised and cleared lines strictly alternate with matching severities, and it stands exactly after an unanswered raise |
| Safety.SafetyController.FrozenMeasurements | src/pyems/controllers/safety.py:96-108 | the loop remembers changes and lists the tags unchanged for too long |
| Safety.SafetyController.Execute | src/pyems/controllers/safety.py:110-176 | trips on a faulty verdict, which `Verdict.TripsIff` tells from the run; then posts the pin on every guarded channel, else withdraws it; status word and latched alarm follow the trip |
| Safety.PostedAllAt | src/pyems/controllers/safety.py:138-149 | a trip leaves exactly the guarded channels with the pin and every other claim as it was |
| Safety.WithdrawnAllAt | src/pyems/controllers/safety.py:167-168 | a release takes exactly the interlock's own claims off the guarded channels |
| Safety.RemembersStart | src/pyems/controllers/safety.py:96-108 | what is remembered of a watched tag is its value and the time of the execution that first saw it |
| Safety.FrozenIffHeldTooLong | src/pyems/controllers/safety.py:96-108 | a tag is reported frozen if and only if it has held one value since an execution more than the limit ago |
| Compliance.SetpointComplianceMonitor.Execute | src/pyems/controllers/setpoint_compliance.py:58-89 | window and status word follow the overshoot |
| Compliance.ViolationIffOvershootLasted | src/pyems/controllers/setpoint_compliance.py:58-73 | a violation is raised if and only if in every execution since one at least the window ago production was above the setpoint by more than the tolerance |
| Compliance.AcceptedIff | src/pyems/controllers/setpoint_compliance.py:47-50 | the tolerances accepted are those under which no unit at or below its setpoint overshoots and no single execution is a violation |
| Scan.GuardedInterlocks | src/pyems/controllers/safety.py:135-176 | after the interlock runs, status word, trip and standing claims say the same |
| Scan.PlayedHarmless | src/pyems/scheduler.py:185-206 | a contained controller that raises anywhere leaves the interlock's claims and status word alone |
| Scan.RaisingIsNoted | src/pyems/scheduler.py:185-206 | a controller is noted as failing after its run if and only if it raised, and no other's note changes |
| Scan.PinPrevails | src/pyems/allocation/allocator.py:128-163 | while the safety claim stands alone at priority 0, arbitration yields exactly its value |
| Scan.InterlockStep | src/pyems/scheduler.py:90-143 | one cycle keeps the interlock and, if tripped, ends with every guarded setpoint live and published at the safe value, or at what the worker landed on it after arbitration; whether or not the safety task was due |
| Scan.InterlockHolds | src/pyems/scheduler.py:90-143 | over every run: sys.safe_mode is 1 if and only if tripped, if and only if the claim stands on every guarded channel, and then each guarded setpoint is published that same cycle at the safe value, or at what the worker landed on it after arbitration |
| Scan.FailClosedStart | src/pyems/scheduler.py:90-143 | while the comms age reads infinite every cycle from the start ends tripped, and publishes each guarded setpoint at the safe value or at what the worker landed on it after arbitration |
| Scan.VerdictOnThisCycle | src/pyems/scheduler.py:94-134 | a due safety task judges the inputs this very cycle read, with what the worker has landed since; otherwise its last verdict stands |
| Verdict.TripsIff | src/pyems/controllers/safety.py:110-149 | over every run of the assembled system: a cycle in which the interlock is due ends tripped if and only if some device's last fully good poll is missing or more than the limit ago, or a device with its own limit exceeds that, or the last delivered write is missing or too long ago, or a watched tag has held one value since an execution more than the limit ago |
| Verdict.GoodIsStamped | src/pyems/drivers/cached.py:356-362 | a device's stamp is the end of the last poll of the run that read it fully, and there is none if no poll did |
| Verdict.WriteIsStamped | src/pyems/drivers/cached.py:384-441 | the write stamp is the end of the last flush or command transaction reported delivered, 0 if there was none |
| Verdict.RemembersLooks | src/pyems/controllers/safety.py:96-108 | over every run of the assembled system the interlock remembers exactly what its own executions have looked at |
| Scan.TripLandsIffInEnvelope | src/pyems/ems.py:367-396 | the envelope check of validate_safety_allocation is exact: a lone trip resolves to the safe value if and only if it passes |
| Scan.DefaultSafePowerLands | src/pyems/ems.py:344-364 | the default safe value always lands, and of a unit that can produce it is the point nearest to zero |
| Scan.PinSetsGoalIff | src/pyems/allocation/allocator.py:104-147 | among any claims, a pin at priority 0 sets the goal, forced, if and only if its value lies in the range left by what outranks it, and it is rejected if not |
| Scan.TripLandsIff | src/pyems/allocation/allocator.py:104-163 | whatever else is posted, rivals at priority 0 included, the trip lands past the ramp if and only if the safe value lies in the range left by the claims ranked before the interlock's |
| Scan.RivalOutranksSafety | src/pyems/allocation/allocator.py:104-147 | a rival pin at priority 0 whose name sorts before the interlock's wins |
| FailClosed.SafeUntilAllRead | src/pyems/drivers/cached.py:152-201 | in the assembled system, over every run and any layout: until every device has been read fully once each cycle ends tripped, and publishes a guarded setpoint at the safe value if and only if the last value a flush loaded or a poll read into it between its command and its reading for publication, if any, is the safe one |
| FailClosed.SafeStartIffPrivate | src/pyems/drivers/cached.py:64-107 | the start fails closed on every run of the assembled system if and only if the worker's store is private; a shared one can publish a register's old content in the first cycle |
| FailClosed.TripReachesDevice | src/pyems/drivers/cached.py:405-441 | from scan cycle to register: a tripped cycle whose guarded setpoint was not displaced, followed by one undisturbed successful flush, leaves the safe value on the device, if the flush took it along or nothing was disturbed before |
| Assembled.AssembledHolds | src/pyems/scheduler.py:90-143 | over every interleaving of whole cycles with the worker, the cycle's tags are the live store off the device channels, what it published is what the driver has cached, and status word, trip and claims agree |
| Assembled.TasksAccount | src/pyems/scheduler.py:127-134 | the tags a cycle's tasks set, in order, account for all its tasks do to the tags off the device channels |
| Assembled.BeatPublishes | src/pyems/scheduler.py:136-143 | a cycle publishes on each configured setpoint what arbitration resolved, clamped, or the last value the worker put on it between its command and its reading |
| Assembled.TrippedRunPublishes | src/pyems/scheduler.py:90-143 | over every run of the assembled system and any layout, a tripped cycle publishes the safe value on a guarded setpoint if and only if the last value the worker put on it between its command and its reading, if any, is the safe one |
| Publication.KeptIffNotReplaced | src/pyems/drivers/cached.py:420-427 | at every state, a step that does not command a live setpoint leaves it its value if and only if the step loads or reads no other value into it |
| Publication.PublishedIsLastPut | src/pyems/drivers/cached.py:191-201 | on every interleaving, what is published for a setpoint is the last value loaded or read into it before it was read, and the commanded one only if there is none |
| Publication.PolledReplacesPin | src/pyems/drivers/cached.py:64-107 | with the objects shared, a poll between a setpoint's command and its publication publishes the register's old content, with no device counted as read |
| Publication.OldFlushReplacesPin | src/pyems/drivers/cached.py:420-425 | with the objects shared, a flush that took the old setpoint and loads it after the new one is commanded has the old one published again, with nothing polled |
| Publication.PinPublishedIffPrivate | src/pyems/drivers/cached.py:64-107 | at every state, the commanded setpoint is the one published whatever the worker does in between, if and only if its store is private |
| Scheduling.SortTasksCorrect | src/pyems/scheduler.py:60 | tasks run in priority order and are a permutation of those configured |
| Scheduling.SortTasksStable | src/pyems/scheduler.py:60 | tasks of one priority run in the order they are configured in |
| Scheduling.GuardianFirst | src/pyems/scheduler.py:60 | a single priority-0 task runs first |
| Scan.RunsAnIntervalApart | src/pyems/scheduler.py:35-39 | over every run a task runs again in the first cycle at least its interval after its last run, and in none before |
| Ledger.PlayedUpToError | src/pyems/scheduler.py:185-206 | a controller's posts, withdrawals and writes land in order up to its first error, and none after, and it raised if and only if there is one |
| Ledger.BoardIsLogged | src/pyems/scheduler.py:127-140 | over every run of the scan cycle the board is what the log of all its controllers' posts and withdrawals and of arbitration's queries makes of it |
| Ledger.RoundAnswersLog | src/pyems/allocation/request.py:115-137 | over every run from an empty board, what arbitration ranks on a channel is exactly each requester's latest post there in any cycle so far that was not withdrawn since and has not expired |
| Ledger.SetpointFollows | src/pyems/allocation/allocator.py:94-179 | over every run each channel's setpoint is what its arbiter alone makes of those rounds of claims, so that what holds of an arbiter over all lists of requests holds of the running system |
| Ledger.SystemGradient | src/pyems/allocation/allocator.py:149-171 | over n cycles of the running system without a forced value a channel's setpoint rises and falls by at most n ramp steps, whatever its controllers claim |
| Scheduling.Scheduler.Guard | src/pyems/scheduler.py:127-131 | the interlock's run changes claims, status word and trip as specified and keeps the allocation alarms in agreement |
| Scheduling.Scheduler.Play | src/pyems/scheduler.py:185-193 | a controller's effects up to its first error, and none after |
| Scheduling.Scheduler.ExecuteContained | src/pyems/scheduler.py:185-206 | a raising controller is noted as failing and the cycle goes on |
| Scheduling.Scheduler.RunTask | src/pyems/scheduler.py:127-134 | a due task runs its controllers in order and is rescheduled; another changes nothing |
| Scheduling.Scheduler.Arbitrate | src/pyems/scheduler.py:136-140 | arbitration runs every cycle and keeps the trip alarm in agreement |
| Scheduling.Scheduler.Step | src/pyems/scheduler.py:90-143 | the object's cycle, from the driver's readings to write_setpoints, is the cycle function the whole-run theorems are about, and hands the driver the live setpoints |
| CachedDriver.CachedDriver.WriteSetpoints | src/pyems/drivers/cached.py:184-201 | a publication caches every named value and marks dirty just those that differ, so that none is written needlessly (`Cadence.TakesIffCalledFor`) |
| CachedDriver.CachedDriver.SendCommand | src/pyems/drivers/cached.py:203-216 | a command joins the queue once; another tag is refused |
| CachedDriver.CachedDriver.LoadCommands | src/pyems/drivers/cached.py:381-382 | commands are loaded in order; two for one tag leave the last |
| CachedDriver.CachedDriver.TakeDue | src/pyems/drivers/cached.py:411-421 | a flush takes the dirty and the overdue setpoints, nothing before the first publication |
| CachedDriver.CachedDriver.LoadSetpoints | src/pyems/drivers/cached.py:424-425 | pending values are loaded, clamped to their channels |
| CachedDriver.CachedDriver.FlushDone | src/pyems/drivers/cached.py:426-441 | success stamps every pending name and cleans those not updated meanwhile; failure changes nothing |
| CachedDriver.CachedDriver.ReadDone | src/pyems/drivers/cached.py:356-362 | only devices that read well are refreshed and stamped |
| CachedDriver.CachedDriver.ReadState | src/pyems/drivers/cached.py:152-182 | copies the cached measurements and the global, write and per-device ages to the live tags; a dead worker is an error that comes before any of it |
| CachedDriver.CachedDriver.AgeS | src/pyems/drivers/cached.py:223-238 | the global age bounds every device's age and is one of them |
| CachedDriver.LoadedHoldsLast | src/pyems/drivers/cached.py:381-382 | after loading, a tag holds its last queued value, clamped |
| Interleaving.ShapedStep | src/pyems/drivers/cached.py:64-143 | every step of either thread, the store private or shared, keeps the commandable channels, the cached names, the transaction and the queue in shape, and a shared store one with the live one |
| SetpointFlow.NothingLostStep | src/pyems/drivers/cached.py:184-201 | every single step of either thread keeps the no-lost-setpoint invariant, unless it changes a loaded register that is still to be written |
| SetpointFlow.NoLostSetpoint | src/pyems/drivers/cached.py:405-441 | in any layout, on every interleaving in which the foreground changes no register between its loading and its writing, a cached name that is not dirty is the value last delivered, through mid-flush updates, A-B-A updates and partly landed failures |
| SetpointFlow.QuiescentPassDelivers | src/pyems/drivers/cached.py:405-441 | in any layout and after any history, a flush that meets no publication and no such change and succeeds leaves all it took, every dirty name with it, delivered at its newest value; and every cached name, if nothing was disturbed before |
| Cadence.TakesIffCalledFor | src/pyems/drivers/cached.py:411-421 | in any layout, on every interleaving, a flush takes a cached name if and only if its value has changed since it was last delivered, it never was, or the keep-alive period has passed since |
| Cadence.NoNeedlessWrite | src/pyems/drivers/cached.py:405-441 | on every interleaving, whatever register a flush writes, its write was called for by that rule when the flush began |
| Cadence.RepublishedIsKeptAlive | src/pyems/drivers/cached.py:184-201 | a setpoint that is only republished at its cached value is written at the keep-alive period and not before |
| CommandFlow.CommandsAccounted | src/pyems/drivers/cached.py:371-403 | on every interleaving delivered batches, the batch in flight and the queue are the whole send history in order, however often transactions fail |
| CommandFlow.LastCommandStands | src/pyems/drivers/cached.py:371-403 | in any layout, with no loaded register changed, a command register holds the last value sent to it once nothing newer for it is queued or in flight |
| CommandFlow.OnlyCommandsWriteCommands | src/pyems/drivers/cached.py:79-84 | in any layout no flush, keep-alive or publication ever writes a command register |
| ReadBack.ReadBackNeverWritten | src/pyems/drivers/cached.py:405-427 | in any layout, on every interleaving that publishes no register polled since it was last commanded or loaded, every value written was commanded by the foreground or sent |
| ReadFlow.SnapshotsConsistent | src/pyems/drivers/cached.py:327-362 | in any layout, on every interleaving in which the foreground's copy overwrites no differing reading before its commit, each device's cached values all come from its last fully good poll, with that poll's stamp |
| ReadFlow.GlobalAgeIsStalest | src/pyems/drivers/cached.py:223-238 | the global age is infinite until every device has read fully once, and then the time since the oldest last good poll |
| SharedStore.SharedStoreLosesSetpoint | src/pyems/drivers/cached.py:64-107 | with the channel objects shared, a concrete interleaving leaves a clean cached setpoint that is not on the device |
| SharedStore.NothingLostIffPrivate | src/pyems/drivers/cached.py:64-107 | on every interleaving each clean cached name is on the device, if and only if the worker's store is private |
| SharedStore.SettingLoadedLosesIff | src/pyems/drivers/cached.py:420-430 | at every state with a loaded flush, setting a register it has yet to write leaves every clean cached name on the device on every later undisturbed run, if and only if it sets the value being flushed |
| SharedStore.SharedStoreReplacesCommand | src/pyems/drivers/cached.py:384-391 | with the objects shared, a concrete interleaving delivers the foreground's value in place of a command |
| SharedStore.SettingLoadedReplacesIff | src/pyems/drivers/cached.py:384-391 | at every state with a loaded command transaction, setting a register it has yet to write leaves the last command standing on every later undisturbed run if and only if it sets the value being written |
| SharedStore.CommandsStandIffPrivate | src/pyems/drivers/cached.py:64-107 | the last command stands on every interleaving if and only if the worker's store is private |
| SharedStore.SharedStoreWritesReadBack | src/pyems/drivers/modbus_device.py:508-516 | with the objects shared, any writable register that is polled can be read back, published and written out though nobody commanded the value |
| SharedStore.PublishingWritesBackIff | src/pyems/drivers/cached.py:191-201 | at every state, reading a live value for publication leaves every later write traceable on every run that publishes no read-back, if and only if the channel's clamp makes it a value the foreground commanded |
| SharedStore.NoReadBackIffPrivate | src/pyems/drivers/cached.py:64-107 | no interleaving writes a read-back out if and only if the worker's store is private |
| SharedStore.SharedStoreFreshensStale | src/pyems/drivers/cached.py:170-173 | with the objects shared and any devices, some interleaving ends with a cached measurement that differs from its device's last fully good poll |
| SharedStore.CopyingStalesIff | src/pyems/drivers/cached.py:170-173 | at every state, the foreground's copy of one cached value leaves each device's cached measurements its last good poll's on every later run that overwrites no reading, if and only if it overwrites no differing reading itself |
| SharedStore.SnapshotsConsistentIffPrivate | src/pyems/drivers/cached.py:64-107 | on every interleaving the cached measurements are their devices' last good polls', for any layout with a measured channel, if and only if the worker's store is private |
| Delivery.WrittenInOrder | src/pyems/drivers/cached.py:371-403 | commands for one register are written in the order they were sent, repetitions included, on every interleaving |
| Delivery.WrittenOnceIff | src/pyems/drivers/cached.py:371-403 | a delivered command was written exactly once if and only if no failed transaction wrote it and its batch held none newer, or one failed transaction wrote it and it was then coalesced away |
| Delivery.ExactlyOnceIff | src/pyems/drivers/cached.py:371-403 | with all delivered, each command for a register was written exactly once, by the transaction that delivered it, if and only if no failed transaction had written the register and no batch held two commands for it |
| Delivery.WritesAreCounted | src/pyems/drivers/cached.py:371-403 | in any layout the device sees exactly as many writes to a command register as transactions wrote it |
| Delivery.RegisterSeesWhatWasSent | src/pyems/drivers/cached.py:371-403 | under that condition, with nothing loaded disturbed, the register sees each value sent to it once, in order, and nothing else |
| Delivery.CommandMayLandTwice | src/pyems/drivers/cached.py:384-403 | a command that lands but is reported failed is written again |
| Delivery.CommandMayNeverLand | src/pyems/drivers/cached.py:381-385 | of two commands for one register in a batch only the last is ever written, and both count as delivered |
| KeepAlive.RewrittenInTime | src/pyems/drivers/cached.py:411-437 | in healthy operation every cached setpoint is written again in less than rewrite + 2 polls |
| KeepAlive.AcceptedGuardNeverTrips | src/pyems/ems.py:421-453 | in healthy operation, with a threshold the validator accepts, the interlock's verdict is the one it would give without the write-age guard, except that it trips while nothing has been flushed yet |
| KeepAlive.GuardFloorIsExact | src/pyems/ems.py:440-446 | on tags with nothing else wrong the interlock stays healthy through every healthy run, once something was written, if and only if its threshold is at least rewrite + 2 polls, the floor the validator demands |
| KeepAlive.GuardBeatsWatchdogIff | src/pyems/ems.py:447-453 | on tags with nothing else wrong the interlock trips no later than the watchdog of a device that is no longer written, if and only if its threshold is at most the watchdog's period, the ceiling the validator demands |
| KeepAlive.NeverStarvesIff | src/pyems/drivers/cached.py:411-437 | a configuration never starves the device watchdog in healthy operation if and only if its period is at least rewrite + 2 polls |
| KeepAlive.KeepaliveFeedsWatchdogIff | src/pyems/ems.py:399-418 | every watchdog the validator accepts is fed in every healthy run if and only if rewrite >= 2 polls |
| Composite.MetOnce | src/pyems/drivers/composite.py:85-100 | each shared endpoint is visited, and visited once |
| Composite.CompositeDriver.Visit | src/pyems/drivers/composite.py:85-100 | connect and disconnect call the first device of each endpoint only |
| Composite.CompositeDriver.ReadPerDevice | src/pyems/drivers/composite.py:142-179 | names the failed devices, reconnects the endpoints that were down before the poll, and updates the down set with clearing winning |
| Composite.FailedIdsExact | src/pyems/drivers/composite.py:174-179 | the ids reported are exactly those of the devices that failed |
| Composite.DownIffLost | src/pyems/drivers/composite.py:169-172 | an endpoint is down after a poll if and only if it had a transport failure in some poll since which, that poll included, no device on it read well |
| Composite.ReconnectsTheDown | src/pyems/drivers/composite.py:145-156 | a poll reconnects exactly the endpoints lost before it, each once |
| Commands.CommandFileReader.Apply | src/pyems/commands.py:182-237 | the latch, both tags and the published hard command follow the document, as the following rows state in its own numbers |
| Commands.ProcessesIsNewId | src/pyems/commands.py:194-204 | the latch looks at a command if and only if the latest read of this run had not shown its id |
| Commands.AllowedIffWitness | src/pyems/commands.py:182-209 | generation is allowed if and only if some read accepted a fresh enable of this run and since then every read was readable, of this run, and no stop was processed |
| Commands.AllowedInNumbers | src/pyems/commands.py:182-209 | allowed implies a read of an enable issued after the run's start and not older than the limit, since which every read showed a command issued after the start and none newly seen was a stop |
| Commands.EnabledInTime | src/pyems/commands.py:182-209 | an enable issued after the start and read for the first time in time allows generation, for as long as it is what is read |
| Commands.AgeShown | src/pyems/commands.py:182-188 | the age shown is the time since the command was issued, not below 0, and infinite without one |
| Commands.HardSwitchController.Execute | src/pyems/controllers/hard_switch.py:64-73 | a new id sends its writes once and reports the state; a repeated or missing id does nothing; an error keeps what was sent |
| Commands.SentUpToRefusal | src/pyems/controllers/hard_switch.py:64-73 | the writes are sent in order up to the first that is refused, and all of them if none is |
| Commands.FiredOncePerId | src/pyems/controllers/hard_switch.py:64-73 | the fired ids are exactly the finite ids seen, with consecutive repeats removed |
| Commands.FiresIffIssued | src/pyems/commands.py:212-237 | a hard command fires if and only if some document of the run shows its id with an action, and it was issued after the run's start |
| Codec.DecodedEncoded | src/pyems/drivers/modbus_device.py:200-216 | writing an integer and decoding it gives its value modulo the register size, and the integer itself if and only if it is in the type's range |
| Codec.EncodedDecoded | src/pyems/drivers/modbus_device.py:200-216 | every register content is the encoding of what it decodes to, which is in range |
| Codec.TwosComplement | src/pyems/drivers/modbus_device.py:210-216 | a value in range goes out in one word, or of a 32-bit type in two with the high one first, a negative one as its two's complement |
| Codec.RangesAre | src/pyems/drivers/modbus_device.py:200-207 | the ranges of the four register types, in numbers |
| Codec.RoundedNearest | src/pyems/sim/device.py:127 | rounding is to the nearest, halves to even |
| Codec.ArrivesJustBelow | src/pyems/drivers/modbus_device.py:538 | truncation to the scale never grows a setpoint and loses less than one unit |
| Codec.ServedWithinHalf | src/pyems/sim/device.py:126-130 | a served field is within half a unit of itself |
| ModbusDevice.ModbusDeviceDriver.ReadState | src/pyems/drivers/modbus_device.py:483-522 | reads every register in order; error answers and implausible measurements are listed and leave their tags |
| ModbusDevice.PollShows | src/pyems/drivers/modbus_device.py:502-516 | after a poll the failed list names exactly the registers that did not answer and the read-only ones out of bounds; their tags keep what they showed, every other shows its decoded and scaled value |
| ModbusDevice.ModbusDeviceDriver.WriteSetpoints | src/pyems/drivers/modbus_device.py:524-547 | all due registers are tried, and the refused ones listed |
| ModbusDevice.OnlyDueIsSent | src/pyems/drivers/modbus_device.py:535-539 | a transaction is sent if and only if it is a due, writable register's, with its commanded value |
| ModbusDevice.RefusedExact | src/pyems/drivers/modbus_device.py:524-547 | the refused list names exactly the due, writable registers that the device did not take |
| SimDevice.SimulatedDevice.constructor | src/pyems/sim/device.py:62-66 | the block runs from the lowest address to the highest end |
| SimDevice.SimulatedDevice.EncodeInto | src/pyems/sim/device.py:126-130 | one field's words land at its offset in the block |
| SimDevice.SimulatedDevice.RefreshRegisters | src/pyems/sim/device.py:132-138 | the loop refreshes the block register by register |
| SimDevice.SimulatedDevice.RouteWrite | src/pyems/sim/device.py:140-151 | a write request yields the setpoints of the writable registers it fully covers |
| SimDevice.RefreshShows | src/pyems/sim/device.py:132-138 | without overlaps each served register holds the encoding of its own field and every other one is as it was |
| SimDevice.RefreshLeaves | src/pyems/sim/device.py:132-138 | words outside the served registers are left alone, overlaps or not |
| SimDevice.RoutedExact | src/pyems/sim/device.py:140-151 | a write request sets exactly what it says to the writable registers that it covers wholly |
| SimDevice.FieldOfChannel | src/pyems/sim/device.py:66 | a channel's field is its name without the device |
| SimDevice.ReadingRoundTrip | src/pyems/sim/device.py:126-138 | the driver decodes each field to within half a unit if it fits the type, wrapped into range if not |
| SimDevice.WritingRoundTrip | src/pyems/sim/device.py:140-151 | a written setpoint arrives as one setpoint of its own field, truncated to the scale if and only if the count fits the type |

## Left out

- ConnectionPower.ExportIntegralBounded: takes executions a fixed time apart and no derivative action, with load, meter and envelope bounded, as the bound is explicit in those numbers.
- ConnectionPower.ImportIntegralBounded: takes the same setting; `ConnectionPower.ArbiterBoundsImportIntegral` gets the applied setpoint from the arbiter.
- ExportLoop.LaggedExcessContracts: takes the lag factor 1 - exp(-dt/tau) as a given number between 0 and 1; the exponential itself is not modelled.
- ExportLoop.ExcessStep: takes a load with load + limit >= 0 and an envelope with p_min <= 0 <= p_max; below that no setpoint meets the limit (`ExportLoop.LimitReachable`).
- Plant.SimWorld.Tick: meter noise is 0 and the lag factor of the tick is given.
- Setpoints.EnvelopeAlways: takes p_min <= p_max, which the channel configuration does not check.
- Scan.InterlockHolds: takes priority 0, the requester name "safety" and the tag sys.safe_mode as the interlock's own; the gate and headroom controllers refuse priority 0, the others take theirs from the configuration (`Scan.TripLandsIff` is what holds otherwise).
- FailClosed.SafeUntilAllRead: takes a comms-age tag no controller may command, as the driver declares it, and a guarded setpoint that the driver publishes.
- FailClosed.SafeStartIffPrivate: takes a device whose poll reads the guarded setpoint's register back; without one, only the flush of an old setpoint can displace it.
- FailClosed.TripReachesDevice: goes one way, as a register can hold the safe value for other reasons.
- Assembled.AssembledHolds: what the interlock finds on the device channels when it runs is any value, so that nothing depends on the worker's steps within one execution of it; what other controllers read is part of the scripts they may follow.
- Verdict.TripsIff: takes clocks that do not go back and that show more than 0, the driver's stamp of "never", when a poll or a write ends; a frozen limit that is not negative; and limits on age tags of the driver's own devices, as `src/pyems/ems.py` (lines 476-479) builds them.
- Ledger.RoundAnswersLog: takes scan times that do not decrease, and a board on which nothing was posted before the run.
- Safety.FrozenIffHeldTooLong: takes a limit that is not negative and execution times that do not decrease.
- KeepAlive.RewrittenInTime: measures from the end of one flush to the end of the next; where inside a flush a register is written is left open.
- CachedDriver.CachedDriver.ReadState: one method for the critical sections (cache copy, ages) and the copying between them; `Interleaving` has the cache copy, each value copied from it and each age as steps of their own.
- CachedDriver.CachedDriver.WriteSetpoints: reads and publishes in one method; `Interleaving` has each reading of a live setpoint and the publication as steps of their own.
- SharedStore.SettingLoadedLosesIff: takes a value being flushed that lies within the channel's bounds, as every commanded one does.
- SharedStore.SettingLoadedReplacesIff: takes a register for which no newer command is queued; a queued one is written over it anyway.
- Delivery.RegisterSeesWhatWasSent: goes one way, as a repeated write and a coalesced command can cancel out in the values seen; `Delivery.WrittenOnceIff` is exact.
- Interleaving.ShapedStep: the single-age mode is the case of one device; loading several setpoints is one step, while every register write is a step of its own.
- SimDevice.RefreshShows: takes registers that do not overlap, which a profile is not checked for.
- Commands.CommandFileReader.Apply: the document is given parsed; the inverter tags' not-a-number is the result None.
- Pid.DerivativeFollows: takes gains that make the filter's time constant not negative; for others the clamp of its weight decides.
- Pid.PIDController.Step: the square root in the tracking time is a given number.
- Scheduling.Scheduler.Step: the command stage arrives with the inputs, and recording and telemetry, which come after the outputs, are not modelled.
- Not-a-number values, floating-point rounding, wall-clock stamps and message texts.
- Logging and its transition flags, except where they also hold state that other code reads.
- Files, sockets, JSON and YAML, Modbus clients, `probe_*` and `scan_unit_ids`; a device transaction is any mixture of landed and failed registers.
- Thread start and stop, keyboard interrupts, the run loop around `Scheduler.step`.
- The user interface, time synchronisation, deployment, and the wiring in `build_ems` and `build_tasks` beyond the validators.
- `PIDController.simulate` and `first_order_plant`, and the register-field functions of the simulated plant, which only compute numbers for display.
