# A verified model of the FT8 radio server

This project models the hand-written state machines, controllers and stream buffers of a headless FT8 radio server
and proves what they guarantee over whole runs. Each part of the program has

- a value-level description of its state and of one step (`datatype World`, `Step`, `Run`, or the like),
- the program's own object as a Dafny class whose methods update fields in place, each proved to be that step, and
- lemmas about every run, with an exact condition where the plain statement fails.

Coroutines are split at their awaits: one action is one atomic segment, and a run is any sequence of segments, rig
answers, operator events and ticks of the clock. The rig is a queue of PTT commands served in order, each of which
may fail with or without having taken effect.

| files | part of the server |
|---|---|
| `MsgParse`, `MsgParseForms` (module `MsgForms`) | message texts and their spellings |
| `Sequencer` (module `Qso`), `SequencerRuns` (`QsoRuns`) | the QSO automaton, and what one QSO asks for, hears and records |
| `TwoStation`, `TwoStationLimits`, `TwoStationReports` | two automata over a lossy channel |
| `Safety`, `SafetyController`, `SafetyHistory`, `SafetyLimits`, `SafetyLedger`, `SafetyLine` | the PTT authority and its interleavings, what its flags tell, when a halt wins, the time spent playing, the line itself |
| `TxPlayer` | the cancellable waveform player |
| `TxDriver`, `TxDriverRuns`, `TxDriverTexts`, `TxDriverObject` | the slot-boundary transmit driver, its budget and timing, and which text goes on the air |
| `Orchestrator`, `OrchestratorObject` | the slot loop |
| `CqLoop` | the automatic CQ loop over the sequencer |
| `RxConverter`, `UtcRing`, `Capture`, `Waterfall` | the receive pipeline and the waterfall line cutter |
| `Supervisor`, `SupervisorObject` | the worker supervisor and its worker |
| `Dxcc` | the country table |
| `FanOut`, `FanOutObjects`, `SpectrumObjects` | delivery to web clients |
| `PushSync`, `PushSyncRows`, `PushSyncObject` | synchronisation with the other log |

## Where the plain statement fails

- Two stations agree on their first entries for each other in every run exactly when three things hold
  (`AgreementExactlyWhen`): the answerer's grid is not RR73, which is printed as a grid and read as a sign-off
  (`ConfusingGridBreaksAgreement`); the caller does not start a CQ between its first text to the answerer and its log
  entry (`CallerRestartBreaksAgreement`); and the answerer does not start a reply between its first report and that
  entry (`AnswererRestartBreaksAgreement`). All their entries agree in every run exactly when, besides, neither starts
  again after that entry (`AllAgreeExactlyWhen`): a later CQ, as the CQ loop calls it, or a later reply can log a
  second QSO out of old messages (`OldMessagesMakeSecondEntry`, `OldMessagesMakeSecondReply`). Whatever is started, a
  logged report from the other station was transmitted by it (`LoggedReportsAreGenuine`).
- A STOP whose release succeeds can still be followed by a key-down: the transmit path awaits a release on an
  uncertain line between its armed check and its key-down. So can a newly reported fault and the start-up sequence.
  Each of the three wins, and lets no new key-down into the rig's queue until an arm, exactly when no transmission
  within budget is waiting there (`StopWinsExactlyWhen`, `NoKeyDownExactlyWhen`).
- The aggregate watchdog compares a counter that grows only when a playback returns. The counter is bounded in every
  run of non-overlapping transmissions (`CounterBounded`). The clock time spent playing in an armed session has a bound
  at all exactly when no playback crashes, or when not the shortest waveform fits the budget
  (`PlayingTimeBoundedExactlyWhen`, `NoBoundWithCrashes`). Without crashes the most that can be spent is the budget and
  one margin; where playbacks may also fail, or hang past their deadline, on an audio fault already latched while TX is
  armed, it is one longest playback more, because an arm that waited for its release does not recheck the faults
  (`MostSpentExactly`).
- Neither bounds how long the rig itself is keyed. With no transmission in progress the line is off in every run
  exactly when no PTT command of the run fails, key-down or release, or when not the shortest waveform fits the budget
  (`UnkeyedWhenIdleExactlyWhen`). After a transmission whose two releases fail, and a cleared fault, TX is armed with
  the rig keyed, nothing under way and nothing counted, for any length of time (`KeyedForAnyTime`).
- The ring counts more samples as dropped than it drops when a late block ends inside the retained stream, and only
  then (`DropsExactlyWhen`). Its docstring says positions are `floor(epoch * 12000)`; the code rounds to nearest.
- Rounding to even shifts a chained block by a sample exactly when an odd number of samples follows an epoch that falls
  on half a sample (`RoundShiftsExactly`); blocks whose lengths are multiples of eight never do (`ChainedPosition`).
- A message taken at slot start has no fit guard. With slots announced at most `late` after they begin, encodes of at
  most `encode` and a rig keyed `keying` after the waveform is handed over, every slot-start transmission of every run
  ends with its margin inside its slot exactly when the three delays plus waveform and margin are less than the period
  (`SlotStartsFitExactlyWhen`).
- A message pulled before a budget reset may go on the air after it, on the new budget's account (`LeftoverGoesOut`,
  `LateEncodeGoesOut`): exactly when an encode begun before the reset comes back and is one of a slot start, or one of
  the decision window that still fits (`ExtraExactlyWhenLeftover`), and at most once between two resets.
- A waveform cached by the decision window goes out by its text alone: when the operator has meanwhile moved the offset,
  and only then, a transmission leaves on another offset than the one in force (`OffOffsetExactlyWhen`,
  `MovedOffsetGoesOut`). Its text and parity are always those of the pull that chose it.
- A message chosen in the decision window before a reply is pressed keeps the parity it was chosen in; only messages
  chosen since are in the slots the press asks for (`StartsKeepParity`).
- A CQ directed by a word that is not FD or DX is read as a CQ from that word (`ModifierSkippedExactlyWhen`).
- At the default period the decision cutoff of 5 s never closes a window, since the fit limit is at 2.26 s; it does in
  periods above 17.74 s and in no others (`WindowCloses`, `CutoffMattersExactlyWhen`).
- A stop pressed after a QSO has finished is lost on the CQ loop, which calls again (`StopEndsLoopExactlyWhen`). A start
  never costs an active loop its QSO, and nothing but a finished QSO resets its timer, exactly when starts do not
  overlap (`PartnerKeptExactlyWhen`, `OnlyCompletionResetsTimer`).
- Waterfall lines depend on how the stream was split exactly when the hop exceeds the window (`SplitInvariantExactlyWhen`).
- The push queue is deduplicated on a fixed grid of 120 s cells, not within a sliding 120 s window as its docstring
  says (`BothKeptExactlyWhen`). A duplicate is put off, perhaps for ever: while nothing is pulled and everything sent is
  accepted, the first `confirm_retries` queued records of a key are pushed in turn, over and over, each coming due again
  before the queue gets past it (`PushedInItsTurn`), so a record with that many before it is never pushed
  (`NeverPushedExactlyWhen`). A row of the other log recognised by its identifier alone confirms nothing
  (`IdentifierAloneConfirmsNothing`).
- A cancel that reaches the player before its playback has begun is forgotten (`CancelBeforePlayIsLost`).
- A sleep that ends early makes the slot loop enter a slot again (`EarlyWakeReenters`). At the head of the loop the
  slots started add up to those skipped, decoded, failed and abandoned exactly when no slot was entered twice
  (`BalanceExactlyWhen`); early sleeps can put them out by any number (`EarlyWakesUnbalance`).

## Model

| member | source | states |
|---|---|---|
| MsgParse.ParseMessage | server/engine/msgparse.py:52-120 | the token loop with its CQ, direction-word, grid, report, roger and end-of-message rules computes the pure parser `Parse`, about which the round trips are proved |
| MsgParse.ParseTriple | server/engine/msgparse.py:88-118 | a text of three words whose first is no CQ reads as receiver, sender and the meaning of the last word alone |
| MsgParse.ParseCqText | server/engine/msgparse.py:64-86 | a printed CQ reads back as a CQ of that call from that grid |
| MsgParse.ParseBareCq | server/engine/msgparse.py:64-77 | a CQ without a locator reads as a CQ of that call |
| MsgParse.ModifierSkippedExactlyWhen | server/engine/msgparse.py:66-77 | with any word before call and locator a CQ reads as the plain CQ if and only if the word is FD or DX; any other word is read as the caller |
| MsgParse.BareModifierSkippedExactlyWhen | server/engine/msgparse.py:66-77 | the same without a locator |
| MsgParse.EndingsReadBack | server/engine/msgparse.py:98-107 | between two calls each of 73, RR73 and RRR reads as that ending, rogering unless it is 73 |
| MsgParse.StandardExactlyWhen | server/engine/msgparse.py:79-93 | three words are standard if and only if the first two are callsigns; otherwise the calls are kept if one is hashed and dropped if not |
| MsgForms.CqStandardExactlyWhen | server/engine/msgparse.py:64-77 | a CQ is standard if and only if its caller is a callsign, and with no caller names nobody |
| MsgForms.TailReadsInOrder | server/engine/msgparse.py:98-118 | words after the two calls count one after the other |
| MsgForms.GridReadsInCapitals | server/engine/msgparse.py:108-109 | a locator in any case reads in capitals, in a CQ and between two calls |
| MsgForms.ShortReportReadsBack | server/engine/msgparse.py:43-49 | a report of one digit reads with its sign and roger |
| MsgForms.NumberIsReportExactlyWhen | server/engine/msgparse.py:98-118 | a bare number is a report exactly when it has one or two digits and is not 73, and longer ones change nothing |
| MsgForms.SuffixAcceptedExactlyWhen | server/engine/msgparse.py:17-20 | a callsign with something after a slash is one if and only if that is one to four capitals or digits |
| MsgForms.AnglesDoNotMatter | server/engine/msgparse.py:123-126 | angle brackets do not change whose call it is |
| MsgForms.CaseDoesNotMatter | server/engine/msgparse.py:123-126 | nor does the case it is written in |
| MsgForms.NobodyIsCalled | server/engine/msgparse.py:129-138 | a CQ calls nobody in particular, and a station without a call is called by nobody |
| MsgParse.GridTokenReadsBack | server/engine/msgparse.py:15-15 | a grid word reads as that grid, except RR73, which reads as end of message |
| MsgParse.BaseOfCall | server/engine/msgparse.py:123-126 | the base of any call of the accepted shape is a nonempty call without suffix, whose base is itself |
| Qso.Sequencer.BeginCq | server/engine/sequencer.py:135-148 | arming for CQ forgets the partner, the counters and the disarm reason, and leaves the automaton calling |
| Qso.Sequencer.BeginReply | server/engine/sequencer.py:150-181 | a reply takes call, grid, report, parity and offset as asked, and a message without a sender changes nothing; that all of this holds until the next start is `QsoRuns.ReplyHolds` |
| Qso.Sequencer.Disarm | server/engine/sequencer.py:183-193 | a stop disarms with its reason and goes idle, except that a finished QSO stays finished |
| Qso.Sequencer.Hear | server/engine/sequencer.py:195-254 | one received message has exactly the effect of the transition function, bystanders and turned-away partners included |
| Qso.Sequencer.Pull | server/engine/sequencer.py:256-300 | one slot's pull gives the text and the next state of the transition function, with the retry limit and the single courtesy 73 |
| Qso.Sequencer.LogOnce | server/engine/sequencer.py:316-340 | the record is appended once per QSO, with both calls, grids and reports |
| QsoRuns.ReplyHolds | server/engine/sequencer.py:150-181 | from a reply to the next start, whatever happens, parity, offset, partner, report, start time and the indifference to a partner that leaves are those the reply asked for |
| QsoRuns.CqHolds | server/engine/sequencer.py:135-148 | from a CQ to the next start the station transmits in even slots on the offset asked for and watches its partner leave |
| QsoRuns.PartnerLossExactlyWhen | server/engine/sequencer.py:200-216 | over any run of a QSO, a message of the partner to a third station disarms as PARTNER_LOST if and only if the QSO came from a CQ, and leaves a reply as it was |
| QsoRuns.StateTellsNews | server/engine/sequencer.py:195-254 | over any run of a QSO the state of an armed station is told by the positions of the first answer, report, confirmation and ending among the messages of the QSO, whatever was pulled, overheard or heard twice |
| QsoRuns.CqAnswererIsFirst | server/engine/sequencer.py:227-232 | over any run a CQ is in QSO with the first sender that answered it, whose measured report and time it keeps |
| QsoRuns.KeepsLastHeard | server/engine/sequencer.py:218-225 | over any run of a QSO grid and received report are the last ones heard from the partner |
| QsoRuns.LogsWhatItHolds | server/engine/sequencer.py:316-340 | every event logs at most one record, with calls, grids, reports and start time as the station holds them |
| QsoRuns.EndsExactlyWhen | server/engine/sequencer.py:195-315 | an armed station disarms by itself if and only if a CQ partner turns away, the exchange is complete, or the tries are used up, each with its own reason, reported once |
| QsoRuns.CourtesyRepeatsExactlyWhen | server/engine/sequencer.py:249-253 | after its 73 a station offers another if and only if it has heard one more ending, and is done otherwise |
| QsoRuns.UnmeasuredIsMinusTen | server/engine/sequencer.py:280-289 | with no signal measured the report offered is -10 |
| QsoRuns.SpellingDoesNotMatter | server/engine/sequencer.py:195-254 | a station in an exchange is moved alike by a message however the calls in it are decorated |
| Qso.RunKeepsCoherent | server/engine/sequencer.py:135-191 | over any events the automaton is armed exactly outside IDLE and DONE, calling has no partner, every other armed state has one, and the counters stay in range |
| Qso.LoggedExactlyOnce | server/engine/sequencer.py:302-340 | over any run the current QSO has been logged once if it reached SIGNOFF or DONE and otherwise not at all |
| Qso.CourtesyAfterLog | server/engine/sequencer.py:256-298 | a 73 is offered only after the log entry, and at most one more often than finals were heard |
| Qso.RetryBudget | server/engine/sequencer.py:270-285 | between two resets at most 1 + max exchange messages are offered, and the next pull disarms as RETRY_EXHAUSTED keeping the partner |
| Qso.SilentPartnerDisarms | server/engine/sequencer.py:214-298 | with a silent partner an armed exchange is disarmed after a number of pulls known in advance, at most 2 + max |
| Qso.ReportTokenReadsBack | server/engine/sequencer.py:89-91 | every measured report prints to a word that reads back as the clamped report, with or without the roger |
| Qso.PrintedTextReadsBack | server/engine/sequencer.py:256-298 | every text the automaton can offer reads back to what it meant exactly when it is not a grid message from RR73 |
| Qso.ApplyKeepsSetup | server/engine/sequencer.py:95-133 | no event changes the station's call, grid or retry limit |
| TwoStation.StepKeepsConsistent | server/engine/sequencer.py:195-340 | every pull, loss, repetition, delay, bystander and stop keeps the joint invariant of the two automata and the air |
| TwoStation.TwoStationAgreement | server/engine/sequencer.py:195-340 | as soon as the caller has logged the answerer, the first entries of the two for each other carry each other's call, grid and report, and they stay first and agreeing in every continuation, new CQs, replies and QSOs included; before that entry the caller does not start once it has addressed the answerer, nor the answerer once it has reported |
| TwoStation.FirstPairStays | server/engine/sequencer.py:316-340 | logs only grow, so an agreeing first pair stays in both logs whatever either station does |
| TwoStation.PrintedForSomeoneElse | server/engine/msgparse.py:129-138 | a text printed for a call with another base never reads as addressed to a station |
| TwoStation.NotEngaged | server/engine/sequencer.py:225-232 | while the caller has another partner, nothing of an exchange with the answerer is on the air and the answerer has logged nothing |
| TwoStationLimits.AgreementExactlyWhen | server/engine/sequencer.py:135-340 | in all reachable worlds in which the caller has logged the answerer the first pair agrees, if and only if both stations keep from starting over in mid-QSO and the answerer's grid is not RR73 |
| TwoStationLimits.ConfusingGridBreaksAgreement | server/engine/msgparse.py:98-116 | with grid RR73 the caller logs an answerer that has logged nothing, whatever the two keep from doing |
| TwoStationLimits.SomeRunCompletes | server/engine/sequencer.py:195-340 | the protocol is not vacuous: under every rule some run ends with one log entry on each side and every text of the exchange on the air |
| TwoStationLimits.CallerRestartBreaksAgreement | server/engine/sequencer.py:135-148 | a caller free to start in mid-QSO can log a report it never transmitted |
| TwoStationLimits.AnswererRestartBreaksAgreement | server/engine/sequencer.py:150-181 | an answerer free to start again after its report can log another report than the caller has from it |
| TwoStationLimits.OldMessagesMakeSecondEntry | server/engine/sequencer.py:135-254 | from every world after the QSO with its texts on the air, a caller free to call again can log a second entry with a report it never transmitted |
| TwoStationLimits.OldMessagesMakeSecondReply | server/engine/sequencer.py:150-254 | an answerer free to reply again can log a second entry whose report the caller never had |
| TwoStationLimits.AllAgreeExactlyWhen | server/engine/sequencer.py:135-340 | in all reachable worlds in which the caller has logged the answerer every entry of the one for the other agrees with every entry of the other, if and only if neither starts over in mid-QSO, neither starts again after that entry, and the grid is not RR73 |
| TwoStationReports.LoggedReportsAreGenuine | server/engine/sequencer.py:195-340 | in every run, whatever either station starts or stops and whatever the grids, a report logged from the other station is one the other put on the air, addressed to this one |
| Safety.RunKeepsInv | server/engine/safety.py:157-314 | over every interleaving each queued command has its coroutine, a keyed line is counted as on or uncertain or its command is under way, and PTT counts as on only under a transmission that will release it |
| Safety.NeverSilentlyKeyed | server/engine/safety.py:234-314 | with no transmission in progress PTT counts as off and a keyed rig implies the uncertain flag |
| Safety.KeyedOnlyWhenCertain | server/engine/safety.py:244-257 | a PTT-on is issued only on a certain line: by an armed, fault-free entry or right after a successful pre-TX release |
| Safety.StopTakesEffect | server/engine/safety.py:157-217 | a STOP, the start-up sequence or the report of a fault not yet latched disarms, latches the fault, and puts its release behind everything that could key the rig |
| Safety.StopWins | server/engine/safety.py:157-217 | after such a halt with no transmission being let in, once its release has succeeded the line stays off until an arm, in every continuation |
| Safety.CounterBounded | server/engine/safety.py:251-286 | with non-overlapping transmissions the counter `tx_seconds` never exceeds the aggregate budget plus one margin |
| SafetyLedger.PlayingTimeBounded | server/engine/safety.py:251-303 | over every run of non-overlapping transmissions with a punctual watchdog and no crash, the clock time spent playing since the last arm, booked beside the controller, is at most budget plus margin, and one longest playback more if playbacks may end on a latched audio fault with TX armed |
| SafetyLedger.MostSpentExactly | server/engine/safety.py:166-303 | those bounds are exact: a number bounds all such runs if and only if it is at least that much, the failing runs using waveforms the controller accepts |
| SafetyLedger.PlayingTimeBoundedExactlyWhen | server/engine/safety.py:282-303 | there is a bound over all such runs if and only if no playback crashes, or the budget is zero so that not even one sample fits |
| SafetyLedger.NoBoundWithCrashes | server/engine/safety.py:282-303 | for every waveform that fits the budget, crashed playbacks of it spend any number of its lengths plus margin in one armed session |
| SafetyLine.UnkeyedWhenIdleExactlyWhen | server/engine/safety.py:255-315 | after a start-up whose release succeeded, the line is off whenever no transmission is in progress, in every run, if and only if neither key-downs nor releases fail, or the budget is zero so that not even one sample fits |
| SafetyLine.KeyedForAnyTime | server/engine/safety.py:299-314 | for every waveform that fits the budget and every length of time a run with failed releases keeps the rig keyed that long in an armed session with no coroutine under way and nothing counted |
| SafetyLimits.StopWinsExactlyWhen | server/engine/safety.py:157-254 | from every reachable state a STOP, a start-up or a newly reported fault wins in all continuations if and only if no transmission within budget waits for its pre-TX release |
| SafetyLimits.NoKeyDownExactlyWhen | server/engine/safety.py:157-254 | from every reachable state such a halt leaves TX disarmed and the fault latched, and until an arm no key-down is queued that was not queued before, in all continuations, if and only if no transmission within budget waits for its pre-TX release |
| SafetyHistory.FlagsTellHistory | server/engine/safety.py:157-315 | over every interleaving TX is armed exactly when an arm completed after the last disarm, halt, overspent budget or new fault; an interlock is faulted exactly when it failed after it was last cleared; the line is uncertain exactly when a command failed after the last successful release; PTT counts as on exactly when a key-down succeeded after the last one |
| SafetyHistory.CallsAskTheRig | server/engine/safety.py:157-257 | a refused call leaves the controller as it was, an accepted one asks the rig for one release, or for the key-down, or an arm for nothing |
| SafetyHistory.PlayedIsReleased | server/engine/safety.py:285-289 | a playback that returned is followed by a release whatever the line is thought to be |
| SafetyHistory.ReleaseIsRetriedOnce | server/engine/safety.py:287-303 | a failed release inside a keyed transmission is asked for exactly once more while PTT counts as on |
| SafetyHistory.WatchdogFiresExactlyWhen | server/engine/safety.py:265-281 | a playback is given up exactly when its length and the margin have passed since the key-down |
| SafetyHistory.StartUpLeadsThere | server/engine/safety.py:157-164 | the state every run starts from is where the start-up sequence ends on a rig in any position, its release having succeeded or failed |
| SafetyLimits.StopCanComeTooEarly | server/engine/safety.py:249-257 | for every waveform that fits the budget such a state is reachable from start-up, and then the rig ends up keyed and disarmed |
| SafetyLimits.ReachableIsSteady | server/engine/safety.py:157-314 | every reachable state satisfies the premises of the exact condition |
| SafetyObject.SafetyController.BeginTx | server/engine/safety.py:234-257 | the entry of transmit, through the length of the waveform, faults, armed flag, uncertain line and aggregate watchdog, is the modelled segment |
| SafetyObject.SafetyController.Stop | server/engine/safety.py:191-198 | STOP disarms and issues exactly one release |
| SafetyObject.SafetyController.Report | server/engine/safety.py:202-217 | a new fault is latched, disarms and issues one release, a latched one issues nothing; what follows over runs is `SafetyLimits.NoKeyDownExactlyWhen` and `SafetyHistory.FlagsTellHistory` |
| SafetyObject.SafetyController.Arm | server/engine/safety.py:166-180 | arming is refused under faults and waits for a release on an uncertain line |
| SafetyObject.SafetyController.RigAnswered | server/engine/safety.py:249-314 | whatever the rig answers to the oldest command, the coroutine it belongs to continues as modelled |
| SafetyObject.SafetyController.PlaybackEnded | server/engine/safety.py:282-297 | played, failed and crashed playback each take their way to the release |
| Playback.PlaysInOrder | server/engine/audio_tx.py:100-144 | over any plays, device failures and cancels, the device gets each waveform from the front, whole unless cancelled or lost, and the reported count is what it got |
| Playback.CancelStopsAtBlock | server/engine/audio_tx.py:125-153 | after a cancel the block under way is the last, its failure is no device fault, and the playback ends once, as cancelled |
| Playback.CancelBeforePlayIsLost | server/engine/audio_tx.py:119-120 | a cancel that comes before the playback has begun has no effect on it |
| Playback.PlaysExactlyWhen | server/engine/audio_tx.py:100-120 | a waveform is taken up if and only if its length is accepted and nothing is playing; refused, it leaves the playback under way alone |
| Playback.TxPlayer.WriteReturned | server/engine/audio_tx.py:125-144 | a completed block is followed by the next one, or by the end of the playback |
| Playback.TxPlayer.Start | server/engine/audio_tx.py:108-120 | bad buffers and a second playback are refused without touching the one under way |
| Driver.OneTransmissionAtATime | server/engine/tx_driver.py:93-204 | in every interleaving at most one coroutine is inside `_transmit` and the in-flight flag says so, although window encodes do not hold it |
| DriverRuns.StartsAreLegal | server/engine/tx_driver.py:105-165 | every transmission is in a slot of the phase in force when its message was chosen, and one from the decision window ends with its margin inside the slot |
| DriverTexts.EveryTransmissionWasOffered | server/engine/tx_driver.py:93-204 | over every run, whatever is started or handed over for the air is the text the sequencer offered at one of its pulls, in a slot of the parity in force at that pull |
| DriverTexts.ChoosesByLastPull | server/engine/tx_driver.py:110-172 | that pull is the last one made by the segment that chose it: slot starts, cached waveforms included, by their own last pull, window transmissions by the last pull before their encode |
| DriverTexts.CacheGoesOutExactlyWhen | server/engine/tx_driver.py:105-118 | a cached waveform goes out at a slot start if and only if nobody is transmitting, the slot has the transmit parity, and the one pull made offers its very text; otherwise it is dropped unless the slot was passed over |
| DriverTexts.StartsKeepParity | server/engine/tx_driver.py:105-172 | over every run and until the next press, every transmission of a message chosen since a reply is in a slot of the parity the reply asked for, since a CQ in an even one |
| DriverTexts.ReplyLeavesPartnersSlots | server/web/api.py:486-506 | a reply to a message heard in slot h, pressed with the parity 1 - h mod 2, never transmits in a slot of h's parity what it chose since |
| DriverTexts.OffOffsetExactlyWhen | server/engine/tx_driver.py:112-189 | a transmission leaves on the offset in force at its pull unless, and only if, it is a cached waveform encoded on another offset |
| DriverTexts.MovedOffsetGoesOut | server/engine/tx_driver.py:110-172 | for every idle station, reply and two offsets there is a run in which the reply pressed again on the second offset goes out on the first |
| DriverTexts.WaveformFillsPlayer | server/engine/tx_driver.py:45-57 | the waveform length the fit guard assumes is the longest the player accepts |
| DriverTexts.WindowCloses | server/engine/tx_driver.py:126-145 | at the default period the decision window asks the sequencer until 2.26 s into the slot and gives up from then on |
| DriverTexts.CutoffMattersExactlyWhen | server/engine/tx_driver.py:126-145 | the decision cutoff ever closes a window before the fit limit if and only if the period is longer than 17.74 s |
| DriverRuns.TransmissionsWithinBudget | server/engine/tx_driver.py:110-171 | of all exchange messages handed over for the air since the last budget reset, counted when they are, at most one was pulled before it, the others are at most those offered since, and the offers at most 1 + max; so at most 2 + max in all |
| DriverRuns.ExtraExactlyWhenLeftover | server/engine/tx_driver.py:159-172 | the extra one goes out exactly when an encode begun before the reset comes back and is one of a slot start, or one of the window that still fits |
| DriverRuns.LeftoverGoesOut | server/engine/tx_driver.py:145-172 | for every idle station and reply pulled in the window there is such a run: on the air once since the reset, with nothing offered |
| DriverRuns.LateEncodeGoesOut | server/engine/tx_driver.py:121-189 | so it does for every station and reply pulled at slot start and still being encoded at the reset |
| DriverRuns.SlotStartsFitExactlyWhen | server/engine/tx_driver.py:105-124 | with bounds on announcement delay and encode time and a given delay of the rig, every slot-start transmission of every run ends with its margin inside its slot if and only if the three delays, waveform and margin are less than a period |
| DriverObject.TxDriver.OnSlotStart | server/engine/tx_driver.py:93-124 | the announcement handler, cached waveform included, is the modelled segment; which text it sends is `DriverTexts.CacheGoesOutExactlyWhen` and `ChoosesByLastPull` |
| DriverObject.TxDriver.Poll | server/engine/tx_driver.py:130-158 | one turn of the decision window gives up, sleeps, or takes a message exactly as modelled |
| DriverObject.TxDriver.OnWindowEncoded | server/engine/tx_driver.py:159-172 | a window encode is transmitted if it still fits and otherwise cached |
| Slots.SlotHoldsEpoch | server/engine/orchestrator.py:51-60 | every instant lies in the slot it is assigned to, negative epochs included |
| Slots.RunIsSound | server/engine/orchestrator.py:164-252 | with a monotone clock and punctual sleeps every reachable state has increasing announcements and decodes, all counters accounted for, and well-placed awaits |
| Slots.SlotsAccounted | server/engine/orchestrator.py:164-183 | slot ids strictly increase, each announcement is inside its slot, and at the loop head started = skipped + decodes + errors + abandoned |
| Slots.PollingIsBounded | server/engine/orchestrator.py:185-203 | a slot that never lands is polled at most grace / interval + 1 times |
| Slots.WaitEndsExactlyWhen | server/engine/orchestrator.py:177-203 | a wait ends in a decode, an abandoned slot or a skip exactly under its condition on samples, stop and grace, and else looks again after an interval or at the end of the grace |
| Slots.DecodeEndsExactlyWhen | server/engine/orchestrator.py:205-252 | a decode is an error exactly when it raised or answered for another slot and then reaches nobody; otherwise its very results are recorded, late exactly past the cutoff |
| Slots.SequencerHearsInTime | server/engine/orchestrator.py:228-241 | in every run the sequencer is in the state of its own run on the operator's and transmitter's events and the parsed messages of the loop's batches, each with its signal and in the order they came, and the batches fed are exactly those finished in time, once each |
| Slots.HeardInNextSlot | server/engine/orchestrator.py:228-241 | a batch is in time if and only if it finished during the very next slot, by its cutoff |
| Slots.BalanceExactlyWhen | server/engine/orchestrator.py:164-183 | punctual sleeps or not, at every loop head started = skipped + decodes + errors + abandoned if and only if no turn found its slot already announced |
| Slots.EarlyWakeReenters | server/engine/orchestrator.py:169-183 | from every sleep on an announced slot, waking inside that slot makes the next turn find it announced and sleep again |
| Slots.EarlyWakesUnbalance | server/engine/orchestrator.py:164-183 | from start-up, with any configuration, early sleeps put the counters out by any number |
| OrchestratorObject.Orchestrator.TurnOver | server/engine/orchestrator.py:167-176 | the head of the loop announces a new slot once and sleeps to its end |
| OrchestratorObject.Orchestrator.Awake | server/engine/orchestrator.py:177-203 | a finished sleep stops, dispatches, fails loudly on a wrong size, skips past the grace, or sleeps again |
| OrchestratorObject.Orchestrator.Feed | server/engine/orchestrator.py:238-241 | the loop over a batch feeds every parsed message with its SNR, in order |
| OrchestratorObject.Orchestrator.DecodeReturned | server/engine/orchestrator.py:205-252 | errors and foreign slots are counted, late batches only counted, the rest fed |
| CqLooping.EveryTickAttends | server/engine/cq_loop.py:79-106 | after every tick of any run an active loop has an armed sequencer and an idle age within the timeout |
| CqLooping.OnlyCompletionResetsTimer | server/engine/cq_loop.py:55-95 | in all runs nothing but a tick that finds a finished QSO resets the idle timer of an active loop, and that tick does, if and only if no start is called while another one is arming |
| CqLooping.UnattendedCallingEnds | server/engine/cq_loop.py:104-106 | the loop is never active for longer than the longest timeout plus one watchdog gap after its last completed QSO |
| CqLooping.StopEndsLoopExactlyWhen | server/engine/cq_loop.py:87-103 | a manual or fault stop, not re-armed meanwhile, ends the loop at the next tick if and only if the QSO had not just finished |
| CqLooping.EndsExactlyWhen | server/engine/cq_loop.py:71-106 | an active loop ends exactly on a stop, a lost lease, a sequencer stopped by hand or fault, or an idle timer run out, with that reason noted once, whatever it had observed before |
| CqLooping.TickDecides | server/engine/cq_loop.py:79-106 | a tick leaves an armed sequencer alone, calls again on the offset just picked after a finished, exhausted or abandoned QSO, and disarms only when out of time |
| CqLooping.StartCalls | server/engine/cq_loop.py:60-69 | a start that comes through calls CQ on the offset it picked and restarts the timer |
| CqLooping.OverlappingStartsLoseQso | server/engine/cq_loop.py:55-69 | for every way a QSO can begin there is a run in which it is under way and the second of two overlapping arms drops its partner with nothing logged and the timer restarted |
| CqLooping.ActiveIsNotArming | server/engine/cq_loop.py:55-69 | in every run without overlapping starts an active loop has no start under way |
| CqLooping.PartnerKeptExactlyWhen | server/engine/cq_loop.py:55-69 | in all runs no arm that comes through drops the partner of an active loop, if and only if no start is called while another one is arming |
| CqLooping.ApplyKeepsReasoned | server/engine/sequencer.py:183-193 | once armed, the automaton is disarmed exactly when it has a reason, and COMPLETE only in DONE |
| CqLooping.CqLoopController.Poll | server/engine/cq_loop.py:79-106 | one tick with its lease gate, transition table and idle check is the modelled step |
| CqLooping.CqLoopController.ArmReturned | server/engine/cq_loop.py:60-69 | a refused arm is only noted, a granted one begins calling and starts the timer |
| Ring.UtcRing.Write | server/engine/audio_rx.py:117-159 | after any write the indices, the gap list, the counters and the buffer keyed by position modulo capacity again describe the whole write history |
| Ring.UtcRing.ReadSlot | server/engine/audio_rx.py:161-176 | a slot is returned exactly when every one of its positions was written and is retained, with the first-written sample at each |
| Ring.AdvanceDescribes | server/engine/audio_rx.py:130-159 | base, high water and gap list computed from the last block are those of the write history |
| Ring.DropsExactlyWhen | server/engine/audio_rx.py:131-142 | offered samples are never lost from the count, and kept + dropped = offered exactly when no late block ends inside the retained stream |
| Rx.RxConverter.Push | server/engine/audio_rx.py:54-62 | what a block adds to the output completes the one-shot filter-and-decimate of all input so far, however it is split |
| Rx.Continues | server/engine/audio_rx.py:54-62 | every fourth filtered sample counted from the stream's start is the one-shot result on the longer input |
| Rx.FirOfImpulse | server/engine/audio_rx.py:54-62 | the reference filter answers a unit impulse with its taps |
| Rx.FirIsLinear | server/engine/audio_rx.py:54-62 | and is linear, so that answer settles all others |
| Rx.QuantizesWithinRange | server/engine/audio_rx.py:54-62 | output samples are rounded to nearest within full scale and clipped to 16 bits beyond |
| Capture.RoundShiftsExactly | server/engine/audio_rx.py:123-126 | moving an epoch by whole samples moves its position by as many exactly when the number is even or the epoch is not on a half |
| Capture.ChainedPosition | server/engine/audio_rx.py:258-302 | a chain of blocks whose lengths are multiples of eight lands each block right behind the last |
| Capture.LockContinues | server/engine/audio_rx.py:238-302 | such a block keeps the ring's content equal to the one-shot conversion, without gap or drop |
| Capture.AudioCapture.BlockEpoch | server/engine/audio_rx.py:258-318 | offset and epoch move as modelled; a timed block is stamped within twice the threshold of the instant it was sampled, an untimed one within the threshold of its length before the callback |
| Capture.StampedWhenTaken | server/engine/audio_rx.py:258-318 | over every run of callbacks a timed block is stamped within twice the threshold of the instant it was sampled, however late it is delivered |
| Capture.SteadyClocksStampByAdc | server/engine/audio_rx.py:275-302 | while the clocks stay within the threshold of how they first stood, the first block is stamped with its sampling instant exactly and every later one within the threshold of its ADC time plus the first skew |
| Capture.ContiguousStreamNeverReanchors | server/engine/audio_rx.py:275-302 | with steady clocks and no audio lost, every block, backlog included, has exactly its ADC time plus the first skew and continues the chain |
| Capture.LossReanchorsExactlyWhen | server/engine/audio_rx.py:290-300 | with steady clocks the chain breaks exactly when the sampling instant is off by more than the threshold, and then jumps to it |
| Capture.ZeroTimesAreNone | server/engine/audio_rx.py:273-276 | a timestamp of zero or less counts as none |
| Capture.PositionIsNearest | server/engine/audio_rx.py:123-126 | a sample goes to the position nearest to its epoch, 12000 a second |
| Capture.NormalizedToOne | server/engine/audio_rx.py:247-251 | 16-bit samples are normalised in proportion to [-1, 1) |
| Capture.AudioCapture.OnBlock | server/engine/audio_rx.py:238-256 | a callback keeps a locked stream locked unless it re-anchors, and the first one locks it |
| Capture.AudioCapture.ReadSlot | server/engine/audio_rx.py:161-176 | end to end: a slot of a locked stream is readable exactly while retained and equals that stretch of the one-shot conversion |
| Waterfall.CutsByPosition | server/engine/waterfall.py:110-130 | whatever the blocks and gaps, the lines are the windows of each gap-free stretch, a hop apart from its first sample, numbered through, none spanning a gap |
| Waterfall.SplitDoesNotMatter | server/engine/waterfall.py:76-79 | the lines of a gap-free stream are those of the whole stream however it is split |
| Waterfall.WindowAt | server/engine/waterfall.py:123-130 | line `i` has number first + i and covers exactly `size` samples from start + i * hop |
| Waterfall.SplitInvariantExactlyWhen | server/engine/waterfall.py:127-129 | independence of the split holds if and only if the hop is at most the window |
| Waterfall.SpectrumComputer.Push | server/engine/waterfall.py:110-130 | the buffer loop computes the modelled cut, its index moving a whole hop even past the end of the buffer |
| Supervision.RunIsSettled | server/core/supervisor.py:161-392 | over any crashes, timeouts, garbage and restarts: a process is held exactly when READY, its generation is current, generation = starts + restarts, and request ids strictly increase |
| Supervision.RequestCorrelates | server/core/supervisor.py:161-273 | whatever the pipe holds, a request returns only an expected reply with the generation and id just assigned, an id never used before |
| Supervision.RequestReturnsItsKind | server/core/supervisor.py:161-273 | a request that succeeds returns the answer to its own question or the worker's own error |
| Supervision.FaultNamesWhatHappened | server/core/supervisor.py:215-273 | the code of a failed round trip says which of nothing in time, a dead worker, garbage, a stale or an unexpected answer was met, in that order |
| Supervision.StartsExactlyWhen | server/core/supervisor.py:141-147 | an explicit start is refused while there is a worker and counted once otherwise |
| Supervision.WorkerObligesExactlyWhen | server/core/worker.py:160-193 | the worker does what a frame asks exactly when it is of its generation and the decode or encode succeeds, and answers an error otherwise |
| Supervision.OneRequestOneReply | server/core/worker.py:160-193 | the worker loop answers one frame once with its generation and id, or dies without a reply |
| Supervision.HonestRoundTrip | server/core/supervisor.py:215-273 | with the real worker a round trip succeeds exactly when the worker serves in time, and leaves both pipe directions empty |
| Supervision.HonestRequest | server/core/supervisor.py:215-273 | with the real worker corrupt, stale and unexpected replies cannot occur |
| Supervision.RunStaysQuiet | server/core/supervisor.py:161-392 | with the real worker both pipe directions are empty between calls, over any run |
| Supervision.StoppedUntilStart | server/core/supervisor.py:141-209 | after a stop no request or other event brings a process back, and every request fails as not running, until an explicit start |
| Supervision.RequestRestarts | server/core/supervisor.py:161-188 | a request restarts the worker once if it finds it down and once more exactly on a transport fault, and the failure on record is that fault unless the restart failed |
| Supervision.StopAsksLiveWorker | server/core/supervisor.py:361-392 | a stop numbers one shutdown frame of the worker's own generation exactly when the worker lives |
| SupervisorObject.WorkerSupervisor.Exchange | server/core/supervisor.py:215-273 | one round trip takes the first thing in the pipe and judges it in the program's order |
| SupervisorObject.WorkerSupervisor.Respawn | server/core/supervisor.py:283-320 | tear down, count, new generation, ping, then READY or DEGRADED without a process |
| SupervisorObject.WorkerSupervisor.Request | server/core/supervisor.py:161-188 | revive if degraded, one exchange, one restart on a transport fault |
| SupervisorObject.WorkerSupervisor.Stop | server/core/supervisor.py:361-392 | stopping numbers a shutdown frame only for a live process and always leaves none |
| Dxcc.CtyDatabase.constructor | server/engine/dxcc.py:58-73 | the built dictionary and trie hold exactly the entities' patterns, the first encountered of duplicates |
| Dxcc.CtyDatabase.Insert | server/engine/dxcc.py:70-73 | inserting a prefix changes what is filed under that prefix only, and only if nothing was |
| Dxcc.CtyDatabase.Descend | server/engine/dxcc.py:83-92 | the walk returns the country of the longest stored nonempty prefix, or none |
| Dxcc.CtyDatabase.Lookup | server/engine/dxcc.py:75-92 | for any table and call the answer is that of one linear scan: first exact entity, else the longest prefix's, else none |
| Dxcc.ScanIsLongest | server/engine/dxcc.py:75-92 | the scan's answer is the first encountered entity of the longest matching prefix, with nothing longer filed |
| Dxcc.FirstEncountered | server/engine/dxcc.py:59-73 | the entity kept for a pattern is that of its first occurrence |
| Dxcc.EntriesInFileOrder | server/engine/dxcc.py:58-73 | the patterns of a table are those of its parts, in file order |
| Dxcc.LookupDecides | server/engine/dxcc.py:75-92 | for every call, suffixed or not, the answer is that of the first entry naming the part before the slash, failing that of the first with its longest prefix, failing both none |
| FanOut.DecodesStayOrdered | server/web/ws.py:88-144 | each decode client's delivered and queued batches are a gap-free slice of the publication log, starting exactly with the oldest batch of the history when it joined if it asked for a replay and with the next one if not, and reaching the newest while it is open |
| FanOut.NothingQueuedIsLost | server/web/ws.py:88-144 | no step takes back what a decode client was given or has queued, closing it included |
| FanOut.JoinForgetsExactlyClosed | server/web/ws.py:118-119 | a subscription clears the list of the closed clients and no others |
| FanOut.QueuesStayBounded | server/web/ws.py:88-144 | over any run no decode client has more batches queued than the bound allows |
| FanOut.LinesConserved | server/engine/waterfall.py:150-213 | each waterfall client's queue is the newest contiguous run, received = taken + queued + dropped, lines are taken in order, and the reported total equals all drops ever and never decreases |
| FanOut.ClientsStayUpToDate | server/web/ws.py:37-64 | an open state client's queue ends at the newest snapshot, and once drained the newest is what it took last |
| FanOut.RefreshCostsOldestAtMost | server/web/ws.py:46-56 | a newer snapshot costs a client at most the oldest of those waiting |
| FanOut.SnapshotsStayBounded | server/web/ws.py:37-64 | over any run a state client has at most as many snapshots queued as the bound allows |
| FanOut.ClosedExactlyWhenBehind | server/web/ws.py:46-56 | a client that stops reading is closed exactly when its consecutive drops reach the limit |
| FanOutObjects.DecodeSubscription.Offer | server/web/ws.py:95-103 | an ordered client is closed rather than skipped when its queue is full |
| FanOutObjects.DecodeBroadcaster.Publish | server/web/ws.py:134-138 | history and every listed client move as modelled, all others stay |
| FanOutObjects.DecodeBroadcaster.Subscribe | server/web/ws.py:118-132 | closed clients are forgotten and the new one is given the history up to what fits |
| SpectrumObjects.SpectrumSubscription.Offer | server/engine/waterfall.py:159-169 | a full queue loses its oldest line and counts it |
| SpectrumObjects.SpectrumFanout.Publish | server/engine/waterfall.py:198-203 | every listed client, and no other, is offered the line |
| SpectrumObjects.SpectrumFanout.Subscribe | server/engine/waterfall.py:188-196 | the drops of closed clients are banked exactly when those clients are forgotten |
| SpectrumObjects.SpectrumFanout.TotalDropped | server/engine/waterfall.py:209-213 | the sum over the list plus what was banked is the modelled total |
| SpectrumObjects.StateSubscription.Offer | server/web/ws.py:46-56 | newest wins, and the drop that reaches the limit closes the client without queueing |
| PushSync.RunIsSound | rumlog_sync/ft8_db.py:204-248 | over any rounds, records logged and voided in between, flag and counter of every record agree with its history and every history is legal |
| PushSync.PendingIsUnconfirmed | rumlog_sync/ft8_db.py:204-248 | the counters are exactly the pushed, unconfirmed records, with 1 to limit attempts |
| PushSync.TickKeepsSound | rumlog_sync/ft8_db.py:212-238 | one tick keeps every history legal: a record is requeued exactly `limit` ticks after its push, and no counter passes the limit |
| PushSync.ConfirmedIsFinal | rumlog_sync/ft8_db.py:240-248 | in a legal history nothing but further confirmations follows a confirmation |
| PushSync.ConfirmedStays | rumlog_sync/ft8_db.py:240-248 | a confirmed record is never requeued or pushed again, whatever follows |
| PushSync.PullConfirmsExactly | rumlog_sync/sync.py:96-122 | one pulled row confirms every completed record of its call and band within 120 s, and no other |
| PushSync.IdentifierAloneConfirmsNothing | rumlog_sync/sync.py:100-121 | a row known by identifier but outside every record's window changes nothing |
| PushSyncRows.PullDecides | rumlog_sync/sync.py:94-122 | a pulled row adds a record, never to be sent back, exactly when no record has its identifier or is of its contact; and exactly the completed records of its call and band within 120 s take its identifier and count as arrived |
| PushSyncRows.PullTwiceAddsOnce | rumlog_sync/sync.py:94-122 | pulling a row again never adds another record |
| PushSyncRows.CursorIsHighest | rumlog_sync/sync.py:92-125 | the cursor after a pull is the highest key seen, and never lower than before |
| PushSyncRows.PushedExactlyWhen | rumlog_sync/sync.py:127-156 | one push marks a record exactly when it is complete, unpushed, accepted, and the first such record of its call, band and cell; all others stay as they are |
| PushSyncRows.RunKeepsRecord | rumlog_sync/sync.py:76-156 | over any run the rounds never change what contact a record is about, where it came from or whether it stands |
| PushSyncRows.FailedRoundsUndo | rumlog_sync/sync.py:148-156 | rounds that fail leave no trace |
| PushSync.KeptExactlyWhenFirst | rumlog_sync/sync.py:41-63 | a queued record survives deduplication exactly when no earlier one has its call, band and 120 s cell |
| PushSync.DedupedAreFirsts | rumlog_sync/sync.py:41-63 | what a round sends is exactly the first queued record of every key, in table order |
| PushSync.EveryKeyIsKept | rumlog_sync/sync.py:41-63 | every key of the queue has a surviving record |
| PushSync.BothKeptExactlyWhen | rumlog_sync/sync.py:41-63 | of any two records of one call and band in any queue both survive exactly when they fall in different cells of a fixed grid and each is the first of its own |
| PushSync.DroppedForNeighbour | rumlog_sync/sync.py:41-63 | a record dropped from any queue has an earlier one of its call and band less than 120 s away |
| PushSync.RoundPushesFirsts | rumlog_sync/sync.py:127-156 | a round with nothing pulled and every sent record accepted pushes exactly the first record of every key, those requeued by its own tick included |
| PushSync.PushedInItsTurn | rumlog_sync/sync.py:127-156 | over any such rounds and any table with no push of the key counting, a queued record with k earlier ones of its key is pushed if and only if k < limit and there are more than k rounds; its marks are those of round k + 1 and every limit rounds after, each later push preceded by its requeueing |
| PushSync.PushesExactlyWhenServed | rumlog_sync/sync.py:127-156 | among those marks is a push in round m + 1 if and only if m mod limit is the number of earlier records |
| PushSync.NeverPushedExactlyWhen | rumlog_sync/sync.py:127-156 | a queued record stays unpushed over all such rounds if and only if at least limit queued records of its key precede it |
| PushSyncObject.Ft8Db.TickUnconfirmed | rumlog_sync/ft8_db.py:212-238 | the loop over the counters, in any order, ages or requeues each once and counts the requeued |
| PushSyncObject.Ft8Db.Mark | rumlog_sync/ft8_db.py:204-210 | a push sets the flag and a fresh counter |
| PushSyncObject.Ft8Db.Confirm | rumlog_sync/ft8_db.py:240-248 | a confirmation sets the flag and removes the counter |
| PushSyncObject.Ft8Db.Pull | rumlog_sync/sync.py:96-122 | a row is inserted, or confirms all its matches, as modelled |
| PushSyncObject.Ft8Db.DedupePending | rumlog_sync/sync.py:41-63 | the loop with its set of seen keys keeps the first record of every key |
| PushSyncObject.Ft8Db.RunSyncOnce | rumlog_sync/sync.py:76-156 | a round is pull, tick, push in that order, and any exception leaves the table and its push state as they were |

## Left out

- Networking, sockets, web routes, authentication, the lease, the database files and AppleScript: tables are sequences and maps, a push succeeds for an arbitrary subset of its records.
- The external effect of a sync round that fails after pushing: the other log may hold records whose flags were rolled back.
- The native decoder and encoder: oracles that return any batch, fail, or take any time.
- FFT, windowing and quantisation of waterfall lines (a line is the window it is computed from), filter design, and floating point: samples and epochs are reals, the waterfall's epoch-to-index rounding is its caller's.
- JSON text: frames are records with a generation and an id, or garbage.
- The `text` echo of a parsed message, the frequency and band of a log record, and Unicode: case folding, digits and spaces are ASCII.
- Task cancellation, clock steps, and rig commands that act after their timeout: a command acts before the rig answers it or not at all.
- Event emission, audit details, callbacks that raise, and log lines.
- Inside `Safety` a playback only ends by itself, fails, crashes or is ended by the watchdog, which is taken to fire on time; the player's own blocks are modelled in `TxPlayer`.
- Playback.PlaysInOrder: a device that cannot be opened or started, and the part of a block an aborted write may still put out, are left out.
- Safety.CounterBounded: requires that transmissions do not overlap, which is what `Driver.OneTransmissionAtATime` gives.
- SafetyLedger.PlayingTimeBounded: counts playback until it ends or its deadline; the up to one second the controller waits for a cancelled playback, and the rig's own delay in keying and releasing, are not counted. Times are whole samples of the waveform.
- SafetyLine.UnkeyedWhenIdleExactlyWhen: starts after a start-up whose release succeeded; after one that failed the line may be in any position from the beginning.
- Safety.StopWins: requires that no transmission is being let in; `SafetyLimits.StopWinsExactlyWhen` shows that this is exactly what is needed.
- Capture.SteadyClocksStampByAdc: requires every block to be timed and the clocks to stay within the threshold; `StampedWhenTaken` holds without.
- DriverTexts.StartsKeepParity: speaks of messages chosen since the press; a window encode begun before it keeps its own parity.
- TwoStation.TwoStationAgreement: requires that neither station starts over in mid-QSO and a grid other than RR73; `TwoStationLimits.AgreementExactlyWhen` shows that each of the three is needed, and `AllAgreeExactlyWhen` what later entries need.
- Slots.RunIsSound: requires a monotone clock and sleeps that do not end early; `EarlyWakeReenters` shows why, and `BalanceExactlyWhen` holds without.
- DriverObject.TxDriver.OnSlotStart: waveform contents beyond text and offset, and the failure counters, are not part of the state.
- Between modules: a disarm by the safety controller reaches the sequencer, and a cancel the player, as an event of any kind at any time; that the one call causes the other is not modelled.
- Capture.AudioCapture.OnBlock: overflow counting, channel selection, the waterfall tap and the stall warning are left out.
- Dxcc.CtyDatabase.constructor: nested dictionaries are one sequence of nodes, so aliasing between dictionaries is not modelled; reading and expanding the country file is left out.
- SupervisorObject.WorkerSupervisor.Stop: what the worker still sends after the shutdown frame is discarded with the pipe; errors of a kind the program does not catch while starting a process are left out.
- PushSync.PushedInItsTurn: requires that nothing is pulled and every record sent is accepted in the rounds, and that no earlier push of the key is counting when they begin; each of these can change a record's turn.
- DriverRuns.SlotStartsFitExactlyWhen: the delay of the rig, from the hand-over through a pre-TX release to the answered key-down, is one parameter; the rig's own queue is modelled in `Safety`.
- PushSync.RunIsSound: starts from an empty table and a fixed limit of at least one, the value the configuration check enforces.
- FanOut.ClientsStayUpToDate: one client at a time; the state broadcaster only repeats its offer for each client.
