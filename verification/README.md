# Model of the Spresense test framework

The framework drives boards over serial ports. A test case has three phases (setup, test, teardown), each a
list of WRITE, EXECUTE and WAIT_FOR steps; a FIFO dispatch loop runs them while device threads, a timer for
each phase and user callbacks queue entries. This project models that engine, the line and message readers
that feed it, the runner that selects, repeats and reports tests, and two array algorithms of the audio tests.

## How the model is built

* `TestModel.dfy` says what each callback of a test does, as functions on a state value. `TestCase.dfy` is the
  `Test` object itself: a class whose methods update its fields in place, each proved equal to its function.
  Exceptions are a field that stays set until the except clause of `run` has dealt with it.
* A run is any list of acts: a device delivers a line, the armed timer runs out, the fail request of an expired
  timer reaches the queue, the loop takes its next entry. Lines, and requests of timers of an older run, can be
  queued before the first token. User code is a choice made at each dispatch: which
  requests it makes (`set_fail`, `stop`, `add_user_event`, monitors), what it answers, whether it raises. The
  theorems hold for every list of acts and every choice.
* Step objects are values with an identity. The attributes that change on a step (the list of strings it waits
  for, the capture storage) live in a table that outlives the run, as the objects do.
* `history` records what happened; the readings of it (stages visited, steps removed, failures in a phase) are
  in `TestHistory.dfy`. `Barrier.dfy` defines the reorderings a phase allows. `TestInvariants.dfy` and
  `TestSafety.dfy` carry the inductive invariant, the other `Test*` files the theorems, and
  `RepeatWitnesses.dfy` concrete runs through the repeat loop.
* `Capture.dfy`, `Templates.dfy`, `TemplateParsing.dfy`, `MessageDevice.dfy`, `NuttShell.dfy`,
  `NuttShellMessages.dfy` are the readers; `TestRunner.dfy` the runner; `PeakSearch.dfy` and `Samples.dfy` the
  audio algorithms. Audio samples and spectra are `real` numbers and integers.

## What turned out false

* A repeat does not always start from a clean test, because the runner resets only the stage. It does if and
  only if the attempt before reached DONE, every timer that ran out had its request delivered or dropped, no list of
  strings accepted a match, and no capture was left open or interrupted (`TestRepeats.RepeatStartsCleanIff`).
  Every attempt starts clean when none of them stops, raises or leaves a timer behind and no step waits for a list of strings or a
  message, which can be seen from the step lists (`EveryAttemptStartsClean`, `TestStorage.PlainWaitsKeepCells`).
* A repeat that starts with steps left over can wait for ever without a timeout: with silent devices and harmless
  user code it does so if and only if a WAIT_FOR step is among them (`TestLeftovers.LeftoversStallIff`; a run that
  gets there: `RepeatWitnesses.RepeatAfterExceptionStalls`).
* A failed test can be reported as passed, because entering SETUP overwrites the verdict. For every run, with
  anything left over: a failure is lost if and only if all failures came before SETUP was entered
  (`TestVerdict.WrongVerdictIff`). Before the call: if the leftover waits are for strings, or for lists of strings of
  their own, some run loses a failure if and only if a late timer is on its way or a leftover step calls user code or
  can raise (`TestLeftovers.LeftoversMisleadIff`). Runs that get there, by an exception and by a plain `set_fail()`:
  `RepeatWitnesses.RepeatAfterExceptionPasses`, `RepeatAfterSetFailPasses`.
* PASS does not always mean that the phases were carried out: `stop()` ends a run with PASS at any point
  (`StopGivesEmptyPass`). After a quit with PASS, all phases were carried out if and only if the run reached DONE
  (`PassedIffDone`). It does so when nobody calls `stop()` (`PassCertifiesAllPhases`), and it does not when a quit
  entry is queued with fewer entries ahead of it than there are steps to go (`TestStop.StopCutsShort`).
* A timeout before DONE does not always make the test fail: the timer thread queues its request after its wait, and
  the last steps can be over by then (`RepeatWitnesses.LateTimeoutPasses`). `TestStop.TimeoutDecidesIff` is the exact
  condition at the moment the request is queued. Without `stop()`, a request that is queued before DONE does make the
  test fail (`TestOrder.FailBeforeDoneDecides`).
* `set_fail()` does not always make the test fail. Called from the callback of a step before DONE, with no `stop()`
  before it, it does (`TestOrder.StepSetFailDecides`); called from a monitor on the event that removes the last step it
  comes behind the quit entry and is ignored (`TestStop.MonitorFailIsLate`).
* A list of strings is used up by its matches, over all attempts: it loses one string with each match it accepts, and
  an event that gets as far as the step raises if and only if as many matches were accepted as there were strings
  (`TestRepeats.ListRaisesIffUsedUp`). `RepeatWitnesses.RepeatWithUsedUpListRaises` is a run whose first attempt
  accepts the line and whose second raises on it.

Where the code and its comments disagree the model follows the code: `findpeaks` keeps values strictly above
the limit although its comment says "greater or equal"; `line_count` of a message descriptor counts the opening
(or closing) line itself although the parameter's comment speaks of additional lines.

## Model

| member | source | states |
|---|---|---|
| EventLoop.Mainloop.Add | TestFramework/src/api/mainloop.py:28-36 | an entry goes to the end of the queue |
| EventLoop.Mainloop.Get | TestFramework/src/api/mainloop.py:20-26 | the oldest entry is taken, or nothing from an empty queue |
| EventLoop.Mainloop.DoQuit | TestFramework/src/api/mainloop.py:39-42 | the loop ends and all queued entries are dropped |
| TestCases.TestCase.SetFail | TestFramework/src/api/test.py:192-203 | a fail request is only queued |
| TestCases.TestCase.Stop | TestFramework/src/api/test.py:509-512 | a stop request is only queued |
| TestCases.TestCase.OutputDataHandler | TestFramework/src/api/test.py:378-388 | a received line becomes a queued event |
| TestCases.TestCase.AddMonitor | TestFramework/src/api/test.py:582-592 | a monitor is entered under its name, replacing an older one |
| TestCases.TestCase.RemoveMonitor | TestFramework/src/api/test.py:594-599 | a monitor is removed by name |
| TestCases.TestCase.SetStage | TestFramework/src/api/test.py:205-220 | the stage and the steps of its phase are loaded |
| TestCases.TestCase.EnterNextStage | TestFramework/src/api/test.py:240-265 | the timer is restarted and the stage changes; TEST is skipped on FAIL |
| TestCases.TestCase.NextStage | TestFramework/src/api/test.py:228-270 | the stage change with its recursion over empty phases refines the specification; its assertion always holds |
| TestCases.TestCase.DoFail | TestFramework/src/api/test.py:178-190 | failing drops the steps and ends the phase |
| TestCases.TestCase.RemoveStep | TestFramework/src/api/test.py:280-291 | the step leaves the list, then a token or the next stage |
| TestCases.TestCase.DoNextStep | TestFramework/src/api/test.py:294-315 | one token does one action step, waits, or moves on |
| TestCases.TestCase.ProcessParserResults | TestFramework/src/api/test.py:317-326 | the callback decides on the removal |
| TestCases.TestCase.ProcessMessage | TestFramework/src/api/test.py:352-355 | the line goes to the capture storage of the step; an exception skips the reset |
| TestCases.TestCase.ProcessPhrases | TestFramework/src/api/test.py:356-369 | a list of strings goes with its first match |
| TestCases.TestCase.ScanWaits | TestFramework/src/api/test.py:335-371 | the scan loop refines the recursive scan |
| TestCases.TestCase.ProcessEvent | TestFramework/src/api/test.py:328-376 | an event is offered to the waiting steps, then to the monitors of its source, read from the live table |
| TestCases.TestCase.Turn | TestFramework/src/api/mainloop.py:20-26 | one turn of the loop is one dispatch step of a run |
| TestCases.TestCase.Happen | TestFramework/src/api/test.py:492-507 | every act is one step of a run, exceptions included |
| TestCases.TestCase.Start | TestFramework/src/api/test.py:480-499 | the state the loop starts from |
| TestCases.TestCase.RunLoop | TestFramework/src/api/test.py:480-499 | the loop under any schedule, ended or not, is a run of the model |
| TestCases.TestCase.Run | TestFramework/src/api/test.py:480-507 | a run of the object is a run of the model, then the cleanup |
| TestCases.TestCase.Attempt | TestFramework/src/api/test.py:461-507 | the early returns of run leave the test as it was, or failed |
| TestCases.TestCase.RunRepeated | TestFramework/src/api/runner.py:213-231 | the repeat loop of the runner refines its specification |
| Barrier.PullForward | TestFramework/src/api/test.py:328-371 | taking a step out of a run of waits keeps the order around every action step |
| Barrier.ReordersRunnable | TestFramework/src/api/test.py:308-315 | an allowed reordering runs the action steps in list order |
| TestSafety.RemoveKeeps | TestFramework/src/api/test.py:280-291 | removing a scanned step keeps every invariant |
| TestSafety.ScanKeeps | TestFramework/src/api/test.py:328-371 | the scan keeps every invariant, whatever the callbacks ask for |
| TestSafety.DispatchKeeps | TestFramework/src/api/mainloop.py:20-26 | one dispatch keeps every invariant, records exactly its failures and keeps the queue order |
| TestSafety.NextKeeps | TestFramework/src/api/test.py:178-376 | no act breaks the invariants |
| TestSafety.RunKeeps | TestFramework/src/api/test.py:492-507 | the invariants hold in every state of every run |
| TestTheorems.StageProtocol | TestFramework/src/api/test.py:228-268 | the stages visited follow the only two paths, TEST is skipped exactly when a failure hit SETUP, at most two failures end a phase |
| TestTheorems.StepsFitStage | TestFramework/src/api/test.py:286-304 | between dispatches there are steps exactly in the three phases, so stale tokens never skip one |
| TestTheorems.NoLostWakeUp | TestFramework/src/api/test.py:267-315 | while there is an action step to do a token is queued, and at DONE a quit entry |
| TestTheorems.AlwaysGuarded | TestFramework/src/api/test.py:223-263 | every phase is guarded by an armed timer or a fail request under way; no timer exists outside the phases |
| TestVerdict.TokensAreBounded | TestFramework/src/api/test.py:267-315 | from any state before SETUP, a run dispatches and queues at most 5 tokens plus one for each step, those left over included |
| TestTheorems.FailuresOnRecord | TestFramework/src/api/test.py:178-190 | the recorded failures are the fail entries dispatched and the exception raised |
| TestTheorems.VerdictIsFold | TestFramework/src/api/test.py:178-262 | from a clean start, at the end the verdict is FAIL if and only if a fail entry was dispatched or an exception raised |
| TestVerdict.VerdictOfAnyRun | TestFramework/src/api/test.py:178-262 | from any state before SETUP, with any steps and timers left over: the verdict is FAIL exactly when a failure came since SETUP was entered |
| TestVerdict.WrongVerdictIff | TestFramework/src/api/test.py:248-252 | a dispatched failure or an exception does not show in the verdict if and only if all of them came before SETUP |
| TestTheorems.PhasesFollowTheLists | TestFramework/src/api/test.py:205-371 | no step is lost, repeated or moved across an action step; a phase left without failure is complete |
| TestTheorems.PassedIffDone | TestFramework/src/api/test.py:228-315 | after a quit with PASS, everything was carried out if and only if DONE was reached |
| TestTheorems.PassCertifiesAllPhases | TestFramework/src/api/test.py:228-315 | without stop() a quit comes only at DONE, and PASS certifies all phases |
| TestTheorems.StopGivesEmptyPass | TestFramework/src/api/test.py:509-512 | a run that stop() ends in SETUP with verdict PASS |
| TestOrder.StageNeverGoesBack | TestFramework/src/api/test.py:228-268 | the rank of the stage never decreases |
| TestOrder.DispatchedInOrder | TestFramework/src/api/mainloop.py:16-46 | entries are dispatched in the order they were queued |
| TestOrder.FailRequestDecides | TestFramework/src/api/test.py:192-203 | a fail request queued before any quit entry makes the run end with FAIL |
| TestOrder.FailBeforeDoneDecides | TestFramework/src/api/test.py:192-203 | without stop(), a fail request queued before DONE always makes the ended run FAIL |
| TestOrder.ExecuteFailIsAhead | TestFramework/src/api/test.py:311-315 | a fail request made by the callback of an execute step is queued ahead of any quit entry, also when the step is the last one |
| TestOrder.WaitFailIsAhead | TestFramework/src/api/test.py:335-371 | so is one made by the callback of any WAIT_FOR step the scan reaches, whatever it answers |
| TestOrder.StepSetFailDecides | TestFramework/src/api/test.py:192-203 | if stop() was not called before, set_fail() from the callback of any step before DONE makes the ended run FAIL |
| TestStop.StopCutsShort | TestFramework/src/api/test.py:509-512 | a quit entry with fewer entries than steps to go ahead of it ends the run before DONE, with phases not carried out and the verdict as it was |
| TestStop.LateFailIsIgnored | TestFramework/src/api/test.py:192-203 | a fail request behind a quit entry does not change the verdict |
| TestStop.TimeoutDecidesIff | TestFramework/src/api/test.py:223-226 | when the request of an expired timer is queued, the ended run is FAIL exactly if it had failed, or an exception ended it, or no quit entry was ahead of all fail requests |
| TestStop.MonitorFailIsLate | TestFramework/src/api/test.py:373-376 | set_fail() from a monitor on the event that removed the last step is ignored |
| TestLiveness.SilentStep | TestFramework/src/api/test.py:223-315 | every act that needs no device and no user request lowers a measure, in any order of dispatches and timers |
| TestLiveness.SilenceEndsTheRun | TestFramework/src/api/test.py:223-315 | from every reachable state, every such schedule ends the run within a number of acts known in advance |
| TestLiveness.SilenceGoesOn | TestFramework/src/api/test.py:223-315 | and there is always such an act while the loop runs |
| TestLiveness.ActionOnlyTestsPass | TestFramework/src/api/test.py:228-315 | a test without waits passes and has run exactly its action steps, phase by phase, in list order |
| TestEvents.UntakenEvent | TestFramework/src/api/test.py:335-371 | an event that nobody in the leading block takes removes and changes no step |
| TestEvents.TakenEvent | TestFramework/src/api/test.py:335-371 | otherwise only the leftmost taker can be removed or changed, and exactly when its condition holds |
| TestEvents.ScanRaisesIff | TestFramework/src/api/test.py:335-371 | an event raises exactly when the leftmost step that takes it raises |
| TestEvents.ListRaisesIffEmpty | TestFramework/src/api/test.py:356-369 | a list of strings that the scan reaches raises if and only if it is empty; otherwise it goes with its match or is passed over |
| TestEvents.AddedMonitor | TestFramework/src/api/test.py:582-592 | adding a monitor leaves exactly it under its name and the others as they were, each at its place |
| TestEvents.RemovedMonitor | TestFramework/src/api/test.py:594-599 | removing a name leaves exactly the other monitors |
| TestEvents.RemovedKeepsOrder | TestFramework/src/api/test.py:594-599 | removing a name keeps the order of the others |
| TestRequests.CallQueues | TestFramework/src/api/test.py:192-203 | what a callback asks for is queued in the order asked, a user event with its source and its line |
| TestRequests.MonitorsCalled | TestFramework/src/api/test.py:373-376 | exactly the monitors of the event's source are called, in table order; the event raises if and only if one of them does |
| TestRequests.TableChangeRaises | TestFramework/src/api/test.py:373-376 | a monitor callback that adds or removes a name raises |
| TestRequests.ReplacedMonitorIsSeen | TestFramework/src/api/test.py:373-376 | a monitor replaced during the event is called in its new form |
| TestRequests.ScanQueues | TestFramework/src/api/test.py:335-371 | the callbacks of the leading block are called in order up to the step that takes the event |
| TestRequests.EventCallsMonitors | TestFramework/src/api/test.py:328-376 | the monitors are called on every event, taken or not, after the steps |
| TestRequests.TokenQueues | TestFramework/src/api/test.py:294-315 | a token calls the callback of the execute step at the head and nobody else |
| TestRequests.EventReadsOnlyItsOwn | TestFramework/src/api/test.py:328-376 | user code other than that of the steps and of the source's monitors makes no difference |
| TestRequests.EveryEventIsOffered | TestFramework/src/api/mainloop.py:16-46 | every line delivered and every event asked for is dispatched once and in order, until a quit drops the queue |
| TestRequests.EarlyLinesMeetNoStep | TestFramework/src/api/test.py:480-499 | lines that arrive before the first token meet no step |
| TestStorage.NextCells | TestFramework/src/api/test.py:335-371 | only the step that takes a dispatched event is changed, and to exactly this |
| TestStorage.ListAfterRun | TestFramework/src/api/test.py:356-369 | a list of strings loses exactly its first string with each match it accepts |
| TestStorage.ListUnchangedIff | TestFramework/src/api/test.py:356-369 | a run leaves a list as it was if and only if it accepted no match |
| TestStorage.CaptureAfterRun | TestFramework/src/api/test.py:352-355 | the capture storage of a step is what the automaton keeps of the lines given to it, unless an exception interrupted it |
| TestStorage.CellsKeptIff | TestFramework/src/api/test.py:43-61 | a run leaves all steps as it found them if and only if no list accepted a match and no capture was left open or interrupted |
| TestStorage.PlainWaitsKeepCells | TestFramework/src/api/test.py:335-371 | a program without waits for lists or messages leaves all steps alone in every run |
| TestRepeats.RepeatsReport | TestFramework/src/api/runner.py:213-231 | with repeat_count n the test is run some k times, 1 <= k <= n + 1: all but the last fail, and the last does not or k is n + 1 |
| TestRepeats.FirstRunIsNotReset | TestFramework/src/api/runner.py:220-228 | only a repeat starts over: the first run of a test that is DONE does nothing |
| TestRepeats.RepeatStartsCleanIff | TestFramework/src/api/runner.py:220-228 | exactly when the next attempt starts from the state the first one started from |
| TestRepeats.OrderlyAttempt | TestFramework/src/api/runner.py:220-228 | an attempt without stop(), exception and late timer leaves a startable test and fails exactly by a dispatched fail entry or a device |
| TestRepeats.EveryAttemptStartsClean | TestFramework/src/api/runner.py:220-228 | if all attempts are such and all waits plain, every attempt starts clean |
| TestRepeats.RepeatsDecide | TestFramework/src/api/runner.py:213-231 | over attempts without stop(), exceptions and timers left on their way: FAIL is reported if and only if every attempt fails, NOT RUN if and only if the first is refused |
| TestRepeats.ListAcrossAttempts | TestFramework/src/api/test.py:356-367 | what is left of a list after k attempts |
| TestRepeats.ListRaisesIffUsedUp | TestFramework/src/api/test.py:356-369 | a step with a list raises if and only if the matches of all attempts so far have used it up |
| TestLeftovers.LeftoverWaitStalls | TestFramework/src/api/test.py:294-308 | a run with a WAIT_FOR step left over, anywhere in the list, never ends without device input, and no timer guards it, as long as user code called before the wait asks for nothing and does not raise |
| TestLeftovers.LeftoversStallIff | TestFramework/src/api/test.py:286-308 | in silence, leftover steps keep a run from SETUP if and only if one of them is a WAIT_FOR step |
| TestLeftovers.CrashVerdict | TestFramework/src/api/test.py:248-252 | an exception before SETUP ends with PASS, any other with FAIL |
| TestLeftovers.FailEntryVerdict | TestFramework/src/api/test.py:248-252 | so does a fail entry dispatched before SETUP |
| TestLeftovers.LeftoversMisleadIff | TestFramework/src/api/test.py:228-252 | with leftover waits for strings or lists of strings of their own: some run loses a failure if and only if a late timer is on its way or a leftover step calls user code or can raise |
| RepeatWitnesses.RepeatAfterExceptionStalls | TestFramework/src/api/test.py:500-502 | an exception in SETUP of a new test, and a repeat that never ends |
| RepeatWitnesses.RepeatAfterExceptionPasses | TestFramework/src/api/test.py:500-502 | two attempts that both raise, reported as passed |
| RepeatWitnesses.RepeatAfterSetFailPasses | TestFramework/src/api/test.py:192-203 | a repeat in which set_fail() is called and dispatched, reported as passed |
| RepeatWitnesses.RepeatWithUsedUpListRaises | TestFramework/src/api/test.py:356-367 | a line accepted in the first attempt raises in the second |
| RepeatWitnesses.LateTimeoutPasses | TestFramework/src/api/test.py:223-226 | a timer that runs out in SETUP of a test that passes |
| TestAfterSetup.ProtocolAfterSetup | TestFramework/src/api/test.py:228-315 | from any state before SETUP, with any steps and timers left over: once SETUP is entered, the stage paths, the steps, the wake-ups and the timeouts are as after a clean start |
| TestAfterSetup.PhasesAfterSetup | TestFramework/src/api/test.py:205-371 | and so are the steps of each phase, none lost, repeated or moved across an action step |
| TestAfterSetup.SilenceEndsAfterSetup | TestFramework/src/api/test.py:223-315 | and every silent schedule ends the run |
| Capture.MessageStorage.TryMessageParse | TestFramework/src/api/message.py:188-242 | one call on the storage object is one step of the automaton |
| Capture.OpeningLine | TestFramework/src/api/message.py:215-218 | a line opens a message if and only if it is the open tag between blanks |
| Capture.ClosingLine | TestFramework/src/api/message.py:226-227 | an open message is closed by exactly the lines whose text contains the close tag, or by any if there is none |
| Capture.FirstOpen | TestFramework/src/api/message.py:215-218 | the least line whose stripped text is the open tag |
| Capture.FirstClose | TestFramework/src/api/message.py:226-227 | the least line containing the close tag, any line without one |
| Capture.FirstMessage | TestFramework/src/api/message.py:27-36 | the extent of the next message as documented |
| Capture.CapturesMessages | TestFramework/src/api/message.py:27-36 | for every descriptor and line sequence the buffers parsed are exactly the documented, disjoint messages, and the storage holds exactly the unfinished one |
| Templates.StepAdvances | TestFramework/src/api/nuttshell_device.py:6-97 | every parser takes at least one line |
| Templates.ParseStable | TestFramework/src/api/message_device.py:74-85 | match, mismatch and exception do not change when more lines follow |
| TemplateParsing.ParseStringLine | TestFramework/src/api/message_device.py:60-72 | key and value of a line, on the shared iterator |
| TemplateParsing.ParseKeyedLine | TestFramework/src/api/nuttshell_device.py:6-97 | the parsers of one line, with their exceptions |
| TemplateParsing.ParseLsLines | TestFramework/src/api/nuttshell_device.py:20-58 | the listing loop refines its recursive specification |
| TemplateParsing.ParseTemplate | TestFramework/src/api/message_device.py:74-85 | the steps of a template in order, into one message object |
| MessageDevices.Decide | TestFramework/src/api/message_device.py:147-163 | a decided read always takes at least one buffered line |
| MessageDevices.BatchConserves | TestFramework/src/api/message_device.py:147-163 | tokens and rest together are the lines |
| MessageDevices.BatchAppend | TestFramework/src/api/message_device.py:147-163 | tokenizing can stop anywhere and go on later |
| MessageDevices.StreamingIsBatch | TestFramework/src/api/message_device.py:141-175 | items returned so far, then the tokens still buffered, are the tokens of all lines received, for every stream, timeout and number of reads |
| MessageDevices.LinesAreConserved | TestFramework/src/api/message_device.py:145-175 | no line is lost, repeated or reordered |
| MessageDevices.ReadOutcomes | TestFramework/src/api/message_device.py:145-175 | an item takes lines; a timeout comes only when nothing is decided and keeps the buffer |
| MessageDevices.ReadFits | TestFramework/src/api/message_device.py:147-175 | an item is the oldest line that no template fits, or the message of the first template that does not mismatch, with the lines it took; otherwise that template needs more lines, or raises |
| MessageDevices.ItemsFit | TestFramework/src/api/message_device.py:147-163 | so is every item of every session, with respect to all lines received from its first line on |
| MessageDevices.ReadStopsInTime | TestFramework/src/api/message_device.py:165-175 | a read takes a line from the port only while what it has decides nothing, and ends with the first timeout |
| MessageDevices.RaisedForGood | TestFramework/src/api/message_device.py:145-163 | a parser exception repeats on every later read |
| MessageDevices.MessageDevice.TryTemplates | TestFramework/src/api/message_device.py:147-163 | the for loop with its else branch decides as specified |
| MessageDevices.MessageDevice.Read | TestFramework/src/api/message_device.py:141-175 | read() refines the specification of one read |
| NuttShell.HeldBackIff | TestFramework/src/api/nuttshell_device.py:34-47 | the reader waits exactly when the oldest line contains "ls" and the next line is missing, or has a colon and no prompt follows |
| NuttShellMessages.ListingIsRead | TestFramework/src/api/nuttshell_device.py:20-58 | a printed listing is read back: the path, the files and the directories, in the order printed |
| NuttShellMessages.CommandIsRead | TestFramework/src/api/nuttshell_device.py:6-16 | the command behind the erase sequence of a prompt line |
| NuttShellMessages.RefusalIsRead | TestFramework/src/api/nuttshell_device.py:61-72 | command and reason of a refused command |
| NuttShellMessages.BytesAreRead | TestFramework/src/api/nuttshell_device.py:75-80 | the value behind the first B |
| NuttShellMessages.ErrorIsRead | TestFramework/src/api/nuttshell_device.py:83-96 | the text behind the first colon of an error line |
| NuttShellMessages.BannerIsRead | TestFramework/src/api/nuttshell_device.py:124-126 | the banner line is a message without fields |
| NuttShellMessages.MismatchIffKeyMissing | TestFramework/src/api/nuttshell_device.py:119-142 | each template passes over exactly the lines without its key |
| NuttShellMessages.PromptRaisesIff | TestFramework/src/api/nuttshell_device.py:9-11 | a prompt line raises exactly when it has no erase sequence |
| NuttShellMessages.BytesRaiseIff | TestFramework/src/api/nuttshell_device.py:77-78 | a bytes line raises exactly when it has no B |
| NuttShellMessages.ErrorNeverRaises | TestFramework/src/api/nuttshell_device.py:83-96 | an error line never raises |
| NuttShellMessages.KeyAndValueAreRead | TestFramework/src/api/message_device.py:20-72 | a line of key and value is recognised by the key, and the value stored under the name given or the key |
| Text.StripTakesBlanks | TestFramework/src/api/nuttshell_device.py:9-11 | strip() takes all blanks around a text away |
| Text.StripIs | TestFramework/src/api/nuttshell_device.py:9-11 | and nothing else |
| Text.SplitAtFirst | TestFramework/src/api/nuttshell_device.py:64-65 | split() cuts at the first separator |
| Text.SplitJoins | TestFramework/src/api/nuttshell_device.py:64-65 | and loses nothing |
| NuttShell.NuttShellStreamingIsBatch | TestFramework/src/api/nuttshell_device.py:119-142 | streaming equals batch for the templates of this device |
| TestRunners.CheckTagsMeaning | TestFramework/src/api/runner.py:152-162 | the tag rule; subtracting the exclude tags makes no difference |
| TestRunners.WantedIff | TestFramework/src/api/runner.py:185-196 | what decides is the rule on the tags of the test and of its group, without regard to case |
| TestRunners.FilterBoth | TestFramework/src/api/runner.py:193-196 | the filter works on each test by itself and keeps the order |
| TestRunners.PopIsFilter | TestFramework/src/api/runner.py:193-196 | popping the collected positions, largest first, is a filter that keeps the order |
| TestRunners.TestGroup.PopAll | TestFramework/src/api/runner.py:239-240 | the popping loop |
| TestRunners.TestGroup.RunWanted | TestFramework/src/api/runner.py:189-231 | the tests the tags admit run, each at most repeat_count + 1 times, the others are untouched and noted |
| TestRunners.TestGroup.Run | TestFramework/src/api/runner.py:185-240 | a test of a group with its devices stays and is run if and only if its tags and those of the group admit it; any other keeps its state |
| TestRunners.TestGroup.Report | TestFramework/src/api/runner.py:104-121 | the three lists by verdict, in group order |
| TestRunners.ReportPartitions | TestFramework/src/api/runner.py:104-121 | the three lists partition the tests |
| TestRunners.ReportedByVerdict | TestFramework/src/api/runner.py:111-116 | a list holds exactly the tests with its verdict |
| TestRunners.ReportKeepsOrder | TestFramework/src/api/runner.py:104-121 | in the order of the group |
| PeakSearch.PaddingIsTransparent | TestScript/arduino/audio/adn_dual_players/adn_dual_players_tc_runner.py:150-163 | comparing in the padded copy is comparing with all values within the spacing |
| PeakSearch.Pad | TestScript/arduino/audio/adn_dual_players/adn_dual_players_tc_runner.py:150-153 | the padded copy |
| PeakSearch.FindPeaks | TestScript/arduino/audio/adn_dual_players/adn_dual_players_tc_runner.py:142-170 | exactly the positions strictly above all values within the spacing and above the limit, ascending |
| PeakSearch.PeaksAreApart | TestScript/arduino/audio/adn_dual_players/adn_dual_players_tc_runner.py:145 | two peaks are more than the spacing apart |
| PeakSearch.PeakCount | TestScript/arduino/audio/adn_dual_players/adn_dual_players_tc_runner.py:145 | k peaks need (k - 1)(spacing + 1) + 1 values |
| PeakSearch.UniqueMaximumIsFound | TestScript/arduino/audio/adn_dual_players/adn_dual_players_tc_runner.py:142-170 | a unique maximum above the limit is always found |
| Samples.FrameFits | TestScript/arduino/audio/adn_recorder_wav/adn_recorder_wav_tc_runner.py:159-161 | the indices of the decoder stay inside the data |
| Samples.SampleRoundTrip | TestScript/arduino/audio/adn_recorder_wav/adn_recorder_wav_tc_runner.py:161 | signed little-endian samples decode to what was encoded |
| Samples.DecodeThreeBytes | TestScript/arduino/audio/adn_recorder_wav/adn_recorder_wav_tc_runner.py:157-161 | the loop computes the first channel, within 24 bits |
| Samples.DecodingInvertsInterleaving | TestScript/arduino/audio/adn_recorder_wav/adn_recorder_wav_tc_runner.py:157-171 | decoding any interleaved frames gives back channel 0, also with an incomplete frame at the end |
| Samples.TwoBytesInvert | TestScript/arduino/audio/adn_recorder_wav/adn_recorder_wav_tc_runner.py:163-171 | the 16-bit branch accepts every whole interleaving and gives back channel 0 |
| Samples.TwoBytesIff | TestScript/arduino/audio/adn_recorder_wav/adn_recorder_wav_tc_runner.py:163-171 | the 16-bit branch accepts exactly data of whole frames |

## Left out

- Serial ports, subprocesses, threads, locks, timer durations and logging: devices deliver any lines, an armed timer runs out at any moment.
- Message objects as event data: the events of a test carry lines.
- The texts of the failure reasons, and the copying of `storage`, `clone` and the test objects.
- A monitor callback that adds or removes monitors raises, as Python does when the size of the table changes during the iteration; for a callback that removes one name and adds another, so that the size stays, the model raises too, while Python depends on the layout of the table.
- A user callback that changes `steps` or `stage` directly: callbacks make requests, answer and raise.
- Exceptions of the logging calls and of `write` are covered as raising steps.
- TestCases.TestCase.Run: takes the schedule as a list that ends the loop, as a run that never ends does not return; `RunLoop` covers the others.
- TestTheorems.VerdictIsFold: only for a clean start; `TestVerdict.VerdictOfAnyRun` covers the others, as `TestAfterSetup` does for the other theorems on runs.
- TestLeftovers.LeftoversMisleadIff: leftover waits for messages, and lists of strings shared by two leftover steps, are not covered by the condition before the call; `TestVerdict.WrongVerdictIff` covers them.
- What other threads queue while one callback of the loop runs comes before or after everything that callback queues: an arrival between two entries queued by the same callback, for example between the two tokens of a stage change over an empty phase, is not modelled.
- Requests of late timers between two runs are dropped after a run that ended, as many as the schedule of the attempt says; those dropped while a device does not open count there too.
- TestRunners.TestGroup.Run: `group.prepare` is absent, and the printing of the summaries is not modelled.
- `lower` of a tag is a parameter.
- MessageDevices.StreamingIsBatch: requires templates with at least one step; a template without steps returns a message without taking a line, for ever.
- PeakSearch.FindPeaks: the data are not empty, as the first value is read at once; values are real numbers, so the small constant of the padding is never lost in rounding; Fourier transforms and frequency checks are not modelled.
- `parse_section`, `parse_line` and the other `Parser` helpers, `Config`, `Toolbox`, flashing and the step lists of the individual runners.
