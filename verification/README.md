# Observatory agent and booking ledgers, modelled and proved in Dafny

This project models the part of the observatory where mistakes are expensive: the mission
state machine that drives the telescope, the watch and the watchdog that act on their own,
the mount's rate control, the link, the command check, and the ledgers, refunds, waitlist
and rate limiter behind bookings. What is proved is about whole runs: every order of
polls, commands, device errors, concurrent transactions and failures.

Verify with `dafny verify dfyconfig.toml`.

| file | models |
|---|---|
| `Missions.dfy` | mission states and the cloud's table of legal transitions |
| `Watch.dfy` | the image watch: recovery ladder and slew budget |
| `Runner.dfy` | the mission runner: polled state machine, captures, retargets, deadline |
| `Stacks.dfy` | a stack as the runner reasons with it |
| `LiveStack.dfy` | the running mean of aligned exposures, which comes to it |
| `Watchdog.dfy` | the watchdog thread and the supervisor's pass, interleaved |
| `NexStar.dfy` | rate control of the mount and its pointing model |
| `Autofocus.dfy` | focusing on a motor with play |
| `Link.dfy` | the outbound queue and the link session |
| `Commands.dfy` | the command check, ownership and the nudge allowance |
| `Ledger.dfy` | minutes and points, statement by statement under concurrency |
| `Journal.dfy` | the posting calls as one transaction sees them |
| `Refunds.dfy` | refunds of chains of rescheduled bookings |
| `Waitlist.dfy` | the waitlist sweep |
| `RateLimit.dfy` | the rate limiter's upsert |

How it is laid out. State that the source updates in place is a class, with a `Valid()`
that holds between calls and methods that keep it; where a class has many fields they are
one record, so that each step is a function on values with a short lemma of its own. What
a run did is recorded beside the state (device calls, slews granted, deliveries, messages
on the wire), and the promises are stated about those records. A `Run` method takes any
sequence of things that can happen. The ledgers are a statement-level machine instead,
because their transactions interleave inside a call.

Where the code and its comments differ, the model follows the code:

- `set_session_end` says the deadline is only ever brought forward; the code replaces it
  (`agent/darkview_agent/mission/runner.py:418-427`). `TwoPumpsEnd` therefore excludes an
  end later than the deadline that has passed.
- A RECENTER between VERIFYING and CENTERING can end an acquired mission with centring
  exhausted: `RecenterCanExhaust` gives a run, and `DoCentering` says exactly when it ends so.
- The runner drops a step of the ladder without telling the watch when a nudge or a moving
  mount makes a solve's frame stale, when a solve is suspended, when a CAPTURE replaces a run
  of auto exposure, and when a retarget cannot slew. The watch then stays in RECOVERING with
  no step to come, and for a deep-sky offset no good frame ends that (`NudgeLoses`,
  `SuspensionLoses`, `CaptureLoses`, `RetargetLoses`, `EndsStall`).
- A corrective slew that a RECENTER overtakes leaves a re-check behind, and a stay that begins
  with it is also lost when the re-check's solve leads to nothing (`RecheckStalls`,
  `StallHappens`). `LadderLaw` and `LostExactly` say that a stay is lost in these two ways alone.
- A chain of more than twelve bookings has nothing to refund (`RefundOfChain`).
- The rate limiter bounds a stretch of one window to twice its limit for some policies
  only; `RateLimitExactly` says which, and covers every block as long as its window.
- The waitlist's one-day read misses exactly the rows longer than a day (`FetchExactly`).
- A park to an altitude the axis cannot read fails; how far beyond its readings a goal may
  lie is in `AgesExactly`, `NeverSettles` and `BetweenDependsOnStart`.

## Model

| member | source | states |
|---|---|---|
| `Missions.OneMissionAtATime` | apps/realtime/src/link/store.ts:91-115 | in a legal history, by the time a later mission has an event the earlier one has reached a terminal state |
| `Missions.EndedStaysEnded` | apps/realtime/src/link/store.ts:91-115 | nothing follows a terminal state but a later mission |
| `Missions.LegalHistoryInOrder` | agent/darkview_agent/mission/runner.py:454-481 | missions appear in a history in the order they were offered |
| `Watch.AtMostSixInAnyWindow` | agent/darkview_agent/mission/watch.py:385-404 | slew times spaced as the deque spaces them put at most six in any half-open ten minutes |
| `Watch.LadderLaw` | agent/darkview_agent/mission/watch.py:212-474 | from the beginning, over any frames, outcomes, dropped steps, resets and questions: a stay in RECOVERING has no step to come exactly when its last step was dropped or was the fruitless solve of a re-check; one that began with no re-check issues at most sixteen steps and is lost only by a drop; disc corrections are granted thirty seconds apart; and a re-centre is issued only if the last solve reported was beyond its limit |
| `Watch.DebounceLaw` | agent/darkview_agent/mission/watch.py:227-246 | from OK a frame leads out exactly when it is the third bad one, counted on the frames since the last good one, renewal or coming to OK, and the first of them is ten seconds old: into WAITING for clouds, else into RECOVERING for its own reason with its first step |
| `Watch.ClearingLaw` | agent/darkview_agent/mission/watch.py:227-257 | back to OK a frame leads exactly when it is the second good one running and what is wrong is not a deep-sky offset; a cloudy one leads from RECOVERING to WAITING |
| `Watch.DriftLaw` | agent/darkview_agent/mission/watch.py:227-234 | in OK a good frame asks for an exposure run exactly when it is the second running that has drifted and nothing is wanted yet |
| `Watch.SolveLaw` | agent/darkview_agent/mission/watch.py:266-312 | what a solve leads to from OK, on the ladder, and in WAITING and UNRECOVERED, by its offset, the failures since the stay began and whether the customer framed the object |
| `Watch.TwoPassesLaw` | agent/darkview_agent/mission/watch.py:456-468 | a pass that fails is followed by the second from its first step, and the second by UNRECOVERED, where nothing else leads but giving up |
| `Watch.OutcomeLaw` | agent/darkview_agent/mission/watch.py:259-320 | what an exposure run, the frame after it, a slew, the solve of a re-check, a nudge, giving up and a reset lead to |
| `Watch.AskingLaw` | agent/darkview_agent/mission/watch.py:349-383 | with no slew wanted, a question brings what is pending; or else a solve in OK, or an exposure run in WAITING and UNRECOVERED, exactly when it is due by the times of what happened |
| `Watch.GrantLaw` | agent/darkview_agent/mission/watch.py:385-404 | a wanted slew is issued exactly when fewer than six were charged in the last ten minutes and, of a disc, none was granted in the last thirty seconds |
| `Watch.RecheckStalls` | agent/darkview_agent/mission/watch.py:284-292 | the solve of a re-check in RECOVERING leaves no step to come exactly when it fails, or is centred when that was not what was wrong |
| `Watch.StallLasts` | agent/darkview_agent/mission/watch.py:212-320 | a stalled stay ends exactly through clouds, a reset, giving up, or the second good frame in a row, which does not count for a deep-sky offset; until then no step is issued |
| `Watch.StallHappens` | agent/darkview_agent/mission/watch.py:314-320 | a run that stalls after a re-check, for every limit |
| `Watch.CleanStallHappens` | agent/darkview_agent/mission/runner.py:1153-1170 | a run whose clean stay stalls on a dropped solve, for every limit |
| `Watch.ReachedAfter` | agent/darkview_agent/mission/watch.py:140-474 | whatever is reported or asked, the watch stays one that such a run comes to |
| `Watch.DroppedKeeps` | agent/darkview_agent/mission/runner.py:502-504 | dropping the step last issued keeps budget and ladder |
| `Watch.WatchPromises` | agent/darkview_agent/mission/watch.py:140-474 | what the invariant kept by every call below comes to: at most six slews charged in any ten minutes, disc corrections thirty seconds apart, a clean stay within sixteen steps, no step to come exactly when the stay is recorded as lost, a re-centre pending only after an offset beyond its limit |
| `Watch.FrameKeeps` | agent/darkview_agent/mission/watch.py:212-257 | judging a frame keeps budget and ladder, and counts a new stay from nothing |
| `Watch.AutoExposedKeeps` | agent/darkview_agent/mission/watch.py:259-264 | an exposure run reported keeps budget and ladder |
| `Watch.SolvedKeeps` | agent/darkview_agent/mission/watch.py:266-312 | a solve reported, whatever its offset, keeps budget and ladder; a stay that goes on keeps its count |
| `Watch.RecentredKeeps` | agent/darkview_agent/mission/watch.py:314-320 | a corrective slew reported keeps budget and ladder |
| `Watch.RefusedKeeps` | agent/darkview_agent/mission/watch.py:322-327 | a refusal of the step just issued returns its charge and keeps budget and ladder |
| `Watch.TakeRecentreKeeps` | agent/darkview_agent/mission/watch.py:385-404 | a re-centre is granted only within the six-slew window and the disc interval |
| `Watch.DueKeeps` | agent/darkview_agent/mission/watch.py:349-383 | asking for the next step keeps budget and ladder, and counts at most one step |
| `Watch.DueCharges` | agent/darkview_agent/mission/watch.py:385-404 | a slew is charged exactly when a re-centre is issued |
| `Watch.FailingKeeps` | agent/darkview_agent/mission/watch.py:456-468 | a failed pass starts the second, or gives up; what is left of the sixteen steps covers it |
| `Runner.EndedParked` | agent/darkview_agent/mission/runner.py:1478-1528 | an ended mission attempted stop-exposure, halt-slew and Park, in that order |
| `Runner.CorrectiveSlewsBudgeted` | agent/darkview_agent/mission/runner.py:1262-1293 | the corrective slews of a mission, at the times they were granted, number at most six in any ten minutes |
| `Runner.LostExactly` | agent/darkview_agent/mission/runner.py:1065-1193 | a live mission in RECOVERING wants no step, has none under way and waits for no frame exactly when its stay is recorded as lost, and then no question at any time brings a step |
| `Runner.NudgeLoses` | agent/darkview_agent/mission/runner.py:939-942 | a nudge while a solve exposes loses the stay, clean or not, once its frame is left |
| `Runner.SuspensionLoses` | agent/darkview_agent/mission/runner.py:489-509 | so does a suspension while a solve exposes, resumed or not |
| `Runner.CaptureLoses` | agent/darkview_agent/mission/runner.py:880-881 | so does a CAPTURE accepted during a run of auto exposure |
| `Runner.RetargetLoses` | agent/darkview_agent/mission/runner.py:996-1034 | so does a retarget that drops a step and cannot slew |
| `Runner.RecenterCanExhaust` | agent/darkview_agent/mission/runner.py:944-958 | from any idle mission OBSERVING, a run of retarget, two solves and a RECENTER after which the correction that was good is past the pole |
| `Runner.EndedKept` | agent/darkview_agent/mission/runner.py:1467-1528 | ending a live mission adds a legal event and one parking attempt, whichever of its calls raised, and keeps every promise |
| `Runner.SlewKept` | agent/darkview_agent/mission/runner.py:598-607 | a permitted slew from rest keeps the promises whether or not the mount raises |
| `Runner.CorrectiveSlewKept` | agent/darkview_agent/mission/runner.py:1279-1293 | a granted and permitted corrective slew is covered by its charge |
| `Runner.FrameTaken` | agent/darkview_agent/mission/runner.py:1314-1327 | a run's frame is of the run's own exposure and gain, and never one too many |
| `Runner.DeliveredKept` | agent/darkview_agent/mission/runner.py:1407-1445 | what is handed over is an accepted request not delivered before, 1 <= stacked <= taken <= asked |
| `Runner.BeginKept` | agent/darkview_agent/mission/runner.py:454-481 | a new mission follows an ended one, with nothing of it left |
| `Runner.WithCaptureKept` | agent/darkview_agent/mission/runner.py:875-890 | an accepted CAPTURE starts from an empty stack, whatever was there |
| `Runner.BackOnTargetKept` | agent/darkview_agent/mission/runner.py:944-958 | RECENTER in any state keeps every promise, and is recorded |
| `Runner.MissionRunner.constructor` | agent/darkview_agent/mission/runner.py:281-323 | a runner with no mission and an empty record |
| `Runner.MissionRunner.End` | agent/darkview_agent/mission/runner.py:1467-1476 | enters the terminal state with its reason, and adds one ending whose attempts are the parking calls; the mount counts as parked exactly when the last did not raise |
| `Runner.MissionRunner.ParkMount` | agent/darkview_agent/mission/runner.py:1478-1528 | the focuser, the exposure, the slew and the Park are each attempted in that order, whichever of those before raised |
| `Runner.MissionRunner.BeginSlew` | agent/darkview_agent/mission/runner.py:598-607 | one slew, to a pointing permitted in the same call; the stack is dropped |
| `Runner.MissionRunner.DoPreparing` | agent/darkview_agent/mission/runner.py:555-597 | slews exactly when there is a site and the envelope permits; otherwise fails with the right reason and moves nothing |
| `Runner.MissionRunner.DoSlewing` | agent/darkview_agent/mission/runner.py:609-627 | goes to VERIFYING when the mount has stopped; while it moves, ends in SLEW_TIMEOUT exactly when the timeout is over and waits otherwise |
| `Runner.MissionRunner.DoVerifying` | agent/darkview_agent/mission/runner.py:628-680 | waits while suspended, exposes at the solve's settings, and leads only to VERIFYING, CENTERING, OBSERVING or, never acquired and at the third solve, to failure; keeps every promise |
| `Runner.MissionRunner.JudgeFrame` | agent/darkview_agent/mission/runner.py:643-680 | three solves and no more; then fails only if never acquired |
| `Runner.MissionRunner.ChooseToCentre` | agent/darkview_agent/mission/runner.py:659-680 | a mission not yet acquired goes to CENTERING; an acquired one exactly with iterations left and a correction, of a star or a disc, that is not past the pole and is permitted now, else it observes on; only asking the mount about a disc can raise |
| `Runner.MissionRunner.DoCentering` | agent/darkview_agent/mission/runner.py:681-713 | the fourth iteration fails the mission and each before it slews at most once; an acquired mission ends as exhausted exactly when its correction is past the pole, which never raises |
| `Runner.MissionRunner.Correction` | agent/darkview_agent/mission/runner.py:781-832 | for a solve, a pointing at the corrected position, returned exactly when that is not past the pole and is permitted at that time; for a disc, the pointing its offset gives from where the mount is, if permitted |
| `Runner.CorrectionTakesOut` | agent/darkview_agent/mission/runner.py:800-820 | aimed where the correction says and as far off as before, the mount is on the object |
| `Runner.MissionRunner.DoObserving` | agent/darkview_agent/mission/runner.py:1065-1112 | a capture goes first once the camera and focuser are free, a suspended mission waits, and otherwise it waits for the mount or begins what the watch asks for, which hears first of a finished slew |
| `Runner.MissionRunner.FinishJob` | agent/darkview_agent/mission/runner.py:1148-1217 | a stale frame, or one of a moving mount, is left alone, which drops a solve and nothing else; any other solve is reported to the watch |
| `Runner.MissionRunner.NextJob` | agent/darkview_agent/mission/runner.py:1114-1140 | what is begun is what the watch asks for at that moment: an exposure run, a solve, a slew or its refusal, and otherwise a live frame |
| `Runner.MissionRunner.AskWatch` | agent/darkview_agent/mission/runner.py:1114-1120 | the watch is asked once, and a slew it grants is charged and not yet commanded |
| `Runner.MissionRunner.Recentre` | agent/darkview_agent/mission/runner.py:1262-1293 | a slew only with a measurement, and charged; a refusal reaches the watch and a live frame is taken instead |
| `Runner.MissionRunner.DoCapturing` | agent/darkview_agent/mission/runner.py:1295-1327 | waits while suspended, takes one frame at a time into the stack, and ends the run at exactly the frames asked for |
| `Runner.MissionRunner.DoProcessing` | agent/darkview_agent/mission/runner.py:1329-1352 | delivers at most once, then completes if the slot is over and otherwise observes on with an empty stack |
| `Runner.MissionRunner.FinishSession` | agent/darkview_agent/mission/runner.py:1363-1405 | at the slot's end the mission ends, or a run is cut short to be delivered, or CENTERING and PROCESSING go on |
| `Runner.MissionRunner.ParkWhenIdle` | agent/darkview_agent/mission/runner.py:1447-1463 | the mount is parked again exactly when it was left unparked and the idle window is over, and nothing else changes |
| `Runner.MissionRunner.Pump` | agent/darkview_agent/mission/runner.py:515-549 | state by state, what a live mission comes to for what the clock and the devices answered: the slew or its refusal, the wait, the exposure, the judgement, the correction, the capture, the delivery or what the watch asks for; past the deadline, how the slot ends; on a device error, HARDWARE_ERROR; a Park that is still due is made again, and any other ended mission is left alone |
| `Runner.MissionRunner.Acquire` | agent/darkview_agent/mission/runner.py:515-762 | a mission on its way that is not held has been OBSERVING or has ended within thirty-three pumps, whatever the frames show and whatever raises, if no slew and no exposure is still running where a pump asks |
| `Runner.MissionRunner.AcquireAtOnce` | agent/darkview_agent/mission/runner.py:515-762 | four pumps lead from PREPARING to OBSERVING when the pointing is permitted, nothing raises and the solve lands on the object |
| `Runner.MissionRunner.TwoPumpsEnd` | agent/darkview_agent/mission/runner.py:515-549 | past the deadline two pumps end a live mission, whatever raises and whatever else is asked between them, retargets included, but a session end later than that |
| `Runner.MissionRunner.Run` | agent/darkview_agent/mission/runner.py:418-1528 | after any sequence of calls: the history is legal and every ending attempted to park in order, every slew was permitted by the envelope at its own time and place, every delivery answers an accepted request for the first time with frames of its own settings, at most six corrective slews fall in any ten minutes and disc corrections are granted thirty seconds apart, the watch is one that a run of reports and questions comes to, a clean stay in RECOVERING takes at most sixteen steps, a stay has no step to come exactly when its last step was dropped or was a fruitless re-check, no acquisition of the history slews from CENTERING a fourth time and no fourth solve falls between two of its events, a mission that has been OBSERVING never ends in PLATE_SOLVE_FAILED, and as exhausted only if a RECENTER came right before the ending; nothing recorded is taken back |
| `Runner.MissionRunner.Offer` | agent/darkview_agent/mission/runner.py:454-481 | refused exactly when a mission is live; otherwise starts afresh |
| `Runner.MissionRunner.Cancel` | agent/darkview_agent/mission/runner.py:483-487 | ends a live mission as CANCELLED with that reason, and does nothing otherwise |
| `Runner.MissionRunner.SuspendCapture` | agent/darkview_agent/mission/runner.py:489-504 | forgets the exposure and holds; the capture in hand is kept, and a solve of the ladder is dropped |
| `Runner.MissionRunner.ResumeCapture` | agent/darkview_agent/mission/runner.py:506-509 | lifts the hold and changes nothing else |
| `Runner.MissionRunner.SetSessionEnd` | agent/darkview_agent/mission/runner.py:418-427 | replaces the deadline, unless given none |
| `Runner.MissionRunner.EndSession` | agent/darkview_agent/mission/runner.py:429-435 | a live mission is past its deadline from then on, and nothing else changes |
| `Runner.MissionRunner.RequestCapture` | agent/darkview_agent/mission/runner.py:851-890 | accepted exactly when live and no run has started, and recorded; a run of auto exposure is dropped |
| `Runner.MissionRunner.RequestFocus` | agent/darkview_agent/mission/runner.py:892-921 | accepted exactly while OBSERVING with no focus change in hand |
| `Runner.MissionRunner.PointingChanged` | agent/darkview_agent/mission/runner.py:923-942 | while OBSERVING the stack starts again and a running exposure is stale; otherwise nothing |
| `Runner.MissionRunner.ReturnedToTarget` | agent/darkview_agent/mission/runner.py:944-958 | resets aim and watch in any state, and never the slew budget |
| `Runner.MissionRunner.Retarget` | agent/darkview_agent/mission/runner.py:960-1034 | taken exactly when OBSERVING with no capture and no focus change, the mount still, a site known and the pointing permitted; then one slew there and a fresh acquisition; refused without an error it changes nothing |
| `LiveStack.ToEven` | agent/darkview_agent/capture/stack.py:156-158 | the even offset nearest zero, less than two away |
| `LiveStack.SumBounded` | agent/darkview_agent/capture/stack.py:186-194 | sums of sixteen-bit pictures stay within the count times the range |
| `LiveStack.LiveStack.Add` | agent/darkview_agent/capture/stack.py:236-308 | the stack becomes the old one and the aligned frame, the old one alone when refused, or the frame alone when its shape is new; to the runner, exactly what the stack it reasons with becomes |
| `LiveStack.LiveStack.Current` | agent/darkview_agent/capture/stack.py:310-330 | each pixel is the whole value nearest the mean of exactly the pictures stacked, ties to even, and stays in sixteen bits |
| `LiveStack.LiveStack.Reset` | agent/darkview_agent/capture/stack.py:224-234 | nothing of the stack survives |
| `Watchdog.Watchdog.Evaluate` | agent/darkview_agent/safety/watchdog.py:215-247 | a pending trigger acts once and parks; or else a link silent for linkDead is parked for unless the last Park since it was up has worked; or else one silent for heartbeatLoss stops the exposure unless that has been done since it was up; and nothing otherwise |
| `Watchdog.Watchdog.Act` | agent/darkview_agent/safety/watchdog.py:249-324 | one action recorded; the exposure is stopped, then for a Park the slew is halted and the mount parked, each attempted whichever raised; the latches are the outcomes |
| `Watchdog.Watchdog.LinkIsOnline` | agent/darkview_agent/safety/watchdog.py:142-155 | both timers and both latches start again, and no action is lost |
| `Watchdog.Watchdog.SetConfig` | agent/darkview_agent/safety/watchdog.py:139-140 | other thresholds from then on, with what was promised kept |
| `Watchdog.Supervisor.ApplyWatchdogActions` | agent/darkview_agent/supervisor.py:612-634 | every action not yet applied is applied, in order; a live mission is cancelled exactly when one of them parked or tried to, for the reason of the first that did; one that only stopped the exposure suspends it, and without either it is unchanged |
| `Watchdog.Supervisor.AdvanceMission` | agent/darkview_agent/supervisor.py:435-439 | every action is applied first, then the hold is lifted if the link is online, then the runner is pumped; so a mission live at a Park is CANCELLED, not advanced |
| `Watchdog.Supervisor.Step` | agent/darkview_agent/supervisor.py:406-439 | in any interleaving: what was applied stays applied, and only commands and the locked section touch the mission |
| `Watchdog.Supervisor.Run` | agent/darkview_agent/supervisor.py:406-439 | after any interleaving the applied actions are a prefix of the watchdog's, each once |
| `NexStar.OneTick` | agent/darkview_agent/devices/nexstar.py:561-614 | an axis error never grows or changes sign: a degree a tick when large, under 0.71 of itself when small |
| `NexStar.WireNeverSaturates` | agent/darkview_agent/devices/nexstar.py:346-349 | no clamped rate reaches the wire's sixteen-bit limit |
| `NexStar.ErrorsAge` | agent/darkview_agent/devices/nexstar.py:561-614 | neither axis passes its goal or wraps on the way |
| `NexStar.ReportedNeverGrows` | agent/darkview_agent/devices/nexstar.py:594-603 | the error the runaway guard watches never grows, whatever the weight |
| `NexStar.ArrivesInTime` | agent/darkview_agent/devices/nexstar.py:84-104 | from any start both axes arrive within 377 ticks of the timeout's 720 |
| `NexStar.UnreadableNeverArrives` | agent/darkview_agent/devices/nexstar.py:334-344 | no reading is on a goal altitude 0.005 degrees or more beyond what the axis can read |
| `NexStar.AgesExactly` | agent/darkview_agent/devices/nexstar.py:561-614 | exactly the goals within 7/172800 of a degree of the readable altitudes are approached from every start without the reading jumping by a turn |
| `NexStar.BetweenDependsOnStart` | agent/darkview_agent/devices/nexstar.py:561-614 | for a goal between those two some start is on it already and some start is taken across |
| `NexStar.NeverSettles` | agent/darkview_agent/devices/nexstar.py:604-609 | near an unreadable goal the settling count never reaches twelve |
| `NexStar.SkyRoundTrip` | agent/darkview_agent/devices/nexstar.py:231-243 | sky to mount and back is the same direction, azimuth in one turn |
| `NexStar.MountRoundTrip` | agent/darkview_agent/devices/nexstar.py:231-243 | mount to sky and back is the same position, azimuth in one turn |
| `NexStar.Wrap180Unique` | agent/darkview_agent/devices/nexstar.py:178-179 | the wrapped angle is the only one in range a whole number of turns away |
| `NexStar.NexStarMount.Step` | agent/darkview_agent/devices/nexstar.py:561-624 | a fault exactly when the error is a degree more than twelve readings before; arrived exactly when on the goal or near it for twelve readings running; else moves one tick; no fault for a reachable goal, and no arrival at an unreadable one |
| `NexStar.NexStarMount.Park` | agent/darkview_agent/devices/nexstar.py:458-485 | to a reachable position always parked, without a fault, before the timeout; to an unreadable one always a fault |
| `Autofocus.SlackAfter` | agent/darkview_agent/devices/simulated.py:495-500 | outward takes slack up to the backlash, inward lets it out |
| `Autofocus.ApproachTaut` | agent/darkview_agent/focus/autofocus.py:55-59 | an approach arrives, and is taut exactly when its last leg takes up the play |
| `Autofocus.FirstSampleTaut` | agent/darkview_agent/focus/autofocus.py:165-176 | the first sample is taut exactly when the start is above the overshoot or the way up takes up the play |
| `Autofocus.StaysTaut` | agent/darkview_agent/focus/autofocus.py:244-250 | from taut, an outward step and the final approach are taut |
| `Autofocus.SimFocuser.MoveTo` | agent/darkview_agent/devices/simulated.py:482-500 | the optics move only when pushed past an end of the play; a move outside the travel changes nothing |
| `Autofocus.StartAutofocus` | agent/darkview_agent/focus/autofocus.py:144-176 | refused exactly when there are too few samples or the window does not fit the travel above the overshoot |
| `Autofocus.Autofocus.Pump` | agent/darkview_agent/focus/autofocus.py:181-213 | what a poll does with the move, the exposure and the reading, by what the motor and the camera answered; with overshoot and step at least the backlash and a start above the overshoot, the run never raises and ends with the optics exactly one backlash behind, whether it found focus or returned |
| `Autofocus.Autofocus.Finish` | agent/darkview_agent/focus/autofocus.py:181-213 | a run that nothing raises in is over within four polls a frame and four more, if motor and camera are ready whenever asked |
| `Autofocus.WindowNearest` | agent/darkview_agent/focus/autofocus.py:161-171 | the window has the start in its middle, or as near to that as the travel above the overshoot allows, its positions a step apart |
| `Autofocus.Autofocus.Following` | agent/darkview_agent/focus/autofocus.py:200-250 | the next position of the window, and after the last one the best focus inside it or the start; within the travel for a run free of backlash |
| `Autofocus.Autofocus.Measure` | agent/darkview_agent/focus/autofocus.py:200-213 | every frame is taken taut, at its own position of the window |
| `Autofocus.Autofocus.PumpMove` | agent/darkview_agent/focus/autofocus.py:124-131 | waits for the motor, is done exactly when every leg is, and else begins the next leg, which raises exactly when it is outside the travel, as no leg of a run free of backlash is |
| `Link.OutboundQueue.Append` | agent/darkview_agent/link/queue.py:59-63 | appended = sent + queued + dropped; the queue is the recent end of what was appended |
| `Link.OutboundQueue.Pop` | agent/darkview_agent/link/queue.py:68-70 | what is sent is the next in order, unchanged |
| `Link.LinkSession.ScheduleRetry` | agent/darkview_agent/link/session.py:407-412 | the k-th failure since the last welcome waits min(2^(k-1), 60) seconds and is recorded |
| `Link.WaitDoubles` | agent/darkview_agent/link/session.py:407-412 | doubling with the cap is the closed form |
| `Link.LinkSession.Drain` | agent/darkview_agent/link/session.py:469-482 | sends in order and stops at the first failure with the rest queued |
| `Link.LinkSession.Send` | agent/darkview_agent/link/session.py:205-221 | the message is appended whatever the link does, and an online link that does not fail has sent everything |
| `Link.LinkSession.HandleWelcome` | agent/darkview_agent/link/session.py:338-364 | online and the backoff reset, or refused for another version |
| `Link.LinkSession.AttemptConnect` | agent/darkview_agent/link/session.py:302-318 | dials exactly when the wait is over, and then has said hello or has failed |
| `Link.LinkSession.SendHeartbeatIfDue` | agent/darkview_agent/link/session.py:447-467 | the number and the time of the last heartbeat move on exactly when one went out |
| `Link.LinkSession.Pump` | agent/darkview_agent/link/session.py:273-296 | a refused session does nothing; a disconnected one dials when its wait is over; a closed socket or an error is a failure; and one that is online afterwards has beaten in time and sent all it had |
| `Link.LinkSession.Run` | agent/darkview_agent/link/session.py:184-482 | across any number of sockets and failures: appended is sent, queued and dropped together, the queue is the recent end of it, what went out is in order and after its socket's welcome, heartbeats are numbered without gaps, and every failure waits as long as its place in the row says with nothing dialled before that |
| `Link.PatientMeans` | agent/darkview_agent/link/session.py:302-412 | at each place of the record: the k-th failure since a welcome waits min(2^(k-1), 60) seconds, and a dial comes after the wait of the failure before it |
| `Link.WelcomeComesFirst` | agent/darkview_agent/link/session.py:338-364 | before every queued message and heartbeat there is a welcome on that same socket |
| `Commands.Commander.Validate` | agent/darkview_agent/command/validator.py:283-312 | accepted exactly when admissible, duplicate exactly when seen, charged exactly for an accepted nudge |
| `Commands.Commander.Evaluate` | agent/darkview_agent/command/validator.py:314-395 | no refusal exactly when unexpired, owned, agreeing and, unless a recovery, allowed by hold, disarm and sky; and which refusal, by the first that applies |
| `Commands.Commander.SetOwner` | agent/darkview_agent/supervisor.py:592-610 | the same session re-asserted keeps what was spent; any other owner starts from nothing |
| `Commands.Commander.ResetNudgeOffset` | agent/darkview_agent/command/validator.py:268-277 | the allowance is whole again and nothing is forgotten about accepted commands |
| `Commands.Commander.Handle` | agent/darkview_agent/supervisor.py:827-857 | comes to what the event comes to: a nudge that fails is charged and moves nothing, a recentring or retarget gives the allowance back |
| `Commands.Commander.Run` | agent/darkview_agent/supervisor.py:827-857 | comes to the course of those events, with the displacement within the accepted total, that within the limit, and accepted ids distinct |
| `Commands.NudgesBounded` | agent/darkview_agent/command/validator.py:455-500 | from the opening on, over any events: the two axes' displacements together are at most the total accepted since the last reset, that total is at most nudgeMax, and no command id is accepted twice |
| `Commands.SpentIsCounted` | agent/darkview_agent/supervisor.py:827-1010 | the allowance used is the sum of the steps accepted since a retarget, a running mission's GOTO or another session gave it back, counted on the events, and each axis is off by what its nudges come to |
| `Commands.ChargedStepKeeps` | agent/darkview_agent/safety/envelope.py:315-353 | a step the limit permits keeps the bound, moved or not |
| `Ledger.LedgerLaw` | packages/db/credits.ts:70-155 | under every interleaving, what is committed has balances and tier points equal to their sums, keys at most once, minutes never negative, running balances on nonzero minutes entries, no sum taken below nothing by an entry that was to be refused rather than do so, tier code of the points reached |
| `Ledger.RunKeeps` | packages/db/loyalty.ts:126-239 | every statement, commit and abort of every open transaction keeps the law |
| `Ledger.ExecutedOk` | packages/db/credits.ts:84-134 | each statement keeps the held row equal to what is settled and what is in flight |
| `Ledger.ClaimedOk` | packages/db/credits.ts:92-103 | a claim moves the row, and only if a conditional one is covered |
| `Ledger.InsertedOk` | packages/db/credits.ts:111-134 | an inserted entry settles the claim; a conflict leaves it to be put back |
| `Ledger.CompensatedOk` | packages/db/credits.ts:128-134 | putting back restores the row as settled |
| `Ledger.RetieredOk` | packages/db/loyalty.ts:208-234 | the tier is brought up to the points |
| `Ledger.CommittedSound` | packages/db/credits.ts:105-109 | a commit makes the transaction's rows part of a sound ledger |
| `Ledger.CommitSpares` | packages/db/credits.ts:105-109 | a commit moves no row another transaction holds |
| `Ledger.AbortKeeps` | packages/db/credits.ts:70-155 | an abort leaves the books as they were |
| `Ledger.UninterruptedPost` | packages/db/credits.ts:70-155 | the statements of a post nobody interrupts come to the post as a whole |
| `Ledger.PostAnswers` | packages/db/loyalty.ts:126-239 | a new event is refused exactly when it would take more than the entries come to from minutes, or from points that must not go negative; otherwise one entry is added, of what was asked |
| `Ledger.StatementsAnswer` | packages/db/credits.ts:70-155 | and so it is when the post is made statement by statement |
| `Ledger.PostOnceSound` | packages/db/loyalty.ts:126-239 | a whole post keeps the law |
| `Ledger.PostingAgain` | packages/db/credits.ts:86-90 | the same event again is a duplicate and changes nothing |
| `Ledger.TierForIsHighest` | packages/db/loyalty.ts:60-65 | the highest tier whose threshold the points reach, the lowest when negative |
| `Journal.PostedUnder` | packages/db/loyalty.ts:126-239 | a post changes what is under its own key and only that |
| `Journal.RefundCancels` | packages/db/loyalty.ts:327-353 | after a reversal what the payment earned and what its booking spent each come to nothing |
| `Journal.RefundReversedElsewhere` | packages/db/loyalty.ts:327-353 | a reversal touches no other event |
| `Journal.Journal.PostCreditEntry` | packages/db/credits.ts:70-155 | the call comes to the whole post, answered by the entries so far, or throws and leaves nothing |
| `Journal.Journal.PostLoyaltyEntry` | packages/db/loyalty.ts:126-239 | the call comes to the whole post, answered by the entries so far |
| `Journal.Journal.SpendBookingMinutes` | packages/db/credits.ts:189-216 | refused exactly without a running period; a spend lowers the sum by its minutes under the booking's key |
| `Journal.Journal.ReleaseSpentMinutes` | packages/db/credits.ts:244-257 | minutes come back once and only while a period runs |
| `Journal.Journal.ExpireSubscriptionMinutes` | packages/db/credits.ts:267-281 | an expiry leaves a sum of nothing, and is a duplicate exactly when the period expired before |
| `Journal.Journal.ReleaseRedeemedPoints` | packages/db/loyalty.ts:307-319 | points come back as one whole post, none for none |
| `Journal.Journal.ReverseLoyaltyForRefund` | packages/db/loyalty.ts:327-353 | the reversal is of the exact amount recorded, then the points spent |
| `Refunds.RefundPromises` | packages/db/refunds.ts:57-368 | from nothing on, over any run of bookings, captures, lapses, reschedules and refunds read and claimed a row at a time: no chain is given back twice, no entitlement leaves OPEN twice, a payment paid back is a sandbox one that had been captured and has left no points behind, minutes released are exactly those spent, and no voucher and no prize pays for two bookings at a time |
| `Refunds.WalkFindsRoot` | packages/db/refunds.ts:89-133 | the walk finds what the root was paid with exactly when the root is within its steps |
| `Refunds.RefundOfChain` | packages/db/refunds.ts:54-55 | twelve bookings are walked and no more |
| `Refunds.RefundExactly` | packages/db/refunds.ts:57-368 | a refund nobody interrupts, read off the rows: refused for no open entitlement, for a chain of more than twelve, for a payment not captured, for a captured one of a real provider, or for nothing paid, and then nothing is written; else the payment, the voucher, the free slot or the minutes come back, the first of them there is |
| `Refunds.ClaimKeeps` | packages/db/refunds.ts:149-156 | an open entitlement is the tip of a chain never given back |
| `Refunds.RefundedByKeeps` | packages/db/refunds.ts:135-156 | a refused refund writes nothing, one that goes through gives back a chain for the first time |
| `Refunds.RefundGivesBack` | packages/db/refunds.ts:158-368 | a claim on an open entitlement goes through: money is paid back, a voucher or prize usable thirty days at least, and while a period runs the minutes released cancel those spent |
| `Refunds.MoneyBack` | packages/db/refunds.ts:158-181 | the paid booking's points come to nothing and no other booking's change |
| `Refunds.PrizeComesBack` | packages/db/card-prizes.ts:19-63 | a prize spent on the booking is free again with its expiry floored |
| `Refunds.Floored` | packages/db/refunds.ts:238-239 | at least thirty days on, never sooner than it was |
| `Refunds.RescheduleKeeps` | apps/api/src/features/booking/entitlement.ts:184-212 | a reschedule resolves the entitlement it came from and moves the chain's tip |
| `Refunds.BookedKeepsMoney` | apps/api/src/features/booking/reserve.ts:678-690 | a new booking's points are spent under its own key |
| `Refunds.BookedKeepsMinutes` | apps/api/src/features/booking/reserve.ts:1079-1095 | a booking paid with minutes has spent them under its own key |
| `Refunds.BookedExactly` | apps/api/src/features/booking/reserve.ts:600-1100 | a booking is made exactly when its payment is new, its voucher and its prize are free and its points and minutes are there, and then they are spent |
| `Refunds.MinutesReleasedPairs` | packages/db/credits.ts:244-257 | a release while a period runs cancels the spend, released before or not, and moves no other booking's minutes |
| `Refunds.HoldStep` | apps/api/src/features/booking/reserve.ts:292-302 | an unpaid booking that lapses or whose payment fails gives back points, minutes and prize, and keeps every promise |
| `Refunds.CaptureKeeps` | packages/db/loyalty.ts:250-266 | a payment that settles earns under its own key, once |
| `Refunds.CaptureEarns` | packages/db/loyalty.ts:250-266 | a payment still to come settles and its booking earns exactly the points, any other is left alone |
| `Refunds.HoldGivesBack` | apps/api/src/features/booking/reserve.ts:292-302 | what an unpaid booking spent comes back to the point and the minute, its prize with the expiry it had, and any other booking is left alone |
| `Refunds.Desk.FindFunding` | packages/db/refunds.ts:89-133 | the loop over the chain comes to the walk |
| `Refunds.WalkUninterrupted` | packages/db/refunds.ts:89-133 | reading the chain a booking at a time comes to the whole walk when nothing happens in between |
| `Refunds.WalkedOnOk` | packages/db/refunds.ts:89-133 | and whatever happens in between, what is found is what the chain's root was paid with |
| `Refunds.Desk.Look` | packages/db/refunds.ts:63-69 | a refund without an open entitlement is refused |
| `Refunds.Desk.WalkOn` | packages/db/refunds.ts:89-133 | one booking more is read, and every refund under way stays sound |
| `Refunds.Desk.Claim` | packages/db/refunds.ts:149-216 | a stale plan is refused and writes nothing; one that claims gives back a new chain |
| `Refunds.Desk.Run` | packages/db/refunds.ts:57-368 | comes to the course of those acts, and leaves the rows square |
| `Waitlist.FetchMissesNothing` | packages/db/waitlist.ts:30-70 | the one-day read finds exactly the overlapping rows when each is within a day |
| `Waitlist.FetchExactly` | packages/db/waitlist.ts:39-70 | a row is found by every slot it overlaps exactly when its own span is within a day |
| `Waitlist.OfferKeeps` | packages/db/waitlist.ts:154-189 | offering the first in line keeps one offer a slot, offers apart, and join order |
| `Waitlist.MovedOnKeeps` | packages/db/waitlist.ts:116-145 | ending, claiming, lapsing, joining and leaving keep them |
| `Waitlist.Waitlist.Settle` | packages/db/waitlist.ts:116-145 | an active place ends exactly when its slot has begun, else is claimed exactly when its user holds a booking there, else lapses exactly when its offer has run out, and is else as it was |
| `Waitlist.Waitlist.OfferFreed` | packages/db/waitlist.ts:147-190 | a place changes only by being offered, offers made are kept, and anybody still waiting waits behind an offer, a booking or an overlapping offer |
| `Waitlist.Waitlist.Sweep` | packages/db/waitlist.ts:113-193 | both, in one pass |
| `Waitlist.Waitlist.Run` | packages/db/waitlist.ts:113-193 | one offer a slot, offers of different people apart, join order, through any sweeps, joins, leaves and bookings |
| `RateLimit.RateLimitHolds` | packages/db/rate-limit.ts:63-105 | whatever the attempts, no stretch of one window admits more than twice the limit |
| `RateLimit.RateLimitExactly` | packages/db/rate-limit.ts:63-105 | that bound holds of every run exactly when the block is at least the window less a millisecond or, at a limit of one, at least half the window |
| `RateLimit.UpsertKeeps` | packages/db/rate-limit.ts:76-98 | each upsert keeps what bounds every stretch, wherever it lies against the window |
| `RateLimit.SparseKeeps` | packages/db/rate-limit.ts:76-98 | at a limit of one what is admitted lies half a window apart |
| `RateLimit.ShortBlocks` | packages/db/rate-limit.ts:76-98 | for every limit above one and every shorter block, attempts that put three times the limit less one into one window's length |
| `RateLimit.KnockingIsFutile` | packages/db/rate-limit.ts:67-75 | attempts during a block change nothing; the first after it is admitted |
| `RateLimit.FirstInAWindow` | packages/db/rate-limit.ts:67-98 | of attempts that fall in one window each up to the limit is admitted and the one after them turned away |
| `RateLimit.RateLimiter.Consume` | packages/db/rate-limit.ts:55-105 | what becomes of the bucket and of the attempt, by the block, the window and the count; other keys are let alone; and twice the limit holds for every stretch |

## Left out

- Watch.WatchPromises: the image watch is modelled on values, which the runner holds; the object updated in place, and its loop that pops old slews, are not.
- Refunds.Desk.Claim: the claim and the writes after it are one step; audit rows and emails are not written.
- Waitlist.Waitlist.Run: two sweeps at once, which the partial unique index guards, are not modelled.
- Commands.Commander.Run: a restart, an evicting seen-set and a change of the measured limits are not modelled.
- NexStar.NexStarMount.Step: tracking, with its feed-forward rates, is not modelled, and one loop ticks the mount.
- NexStar.BetweenDependsOnStart: whether a start that is taken across comes to the goal on a later round is not decided.
- Ledger.LedgerLaw: the tier table stays as it is; the database's own locking, uniqueness and rollback are taken as given.
- Floating point: angles, times and sums are exact, so rounding is modelled only where the code rounds on purpose.
- Envelope trigonometry, the Sun, coordinate conversion, plate solving and image statistics are arbitrary inputs or given functions.
- The dwell lock, auto-exposure's choice of settings, monitoring, arming and the wall-clock fields shown to clients are not modelled.
- Referral rewards, billing months, voucher codes and the API's routes are not modelled.
