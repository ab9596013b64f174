// Concrete runs, each starting from a new test and most of them going through the repeat loop, in
// which something goes wrong.
module RepeatWitnesses {
  import opened Text
  import opened EventLoop
  import Capture
  import opened TestModel
  import opened TestTheorems
  import opened TestVerdict
  import opened TestLiveness
  import opened TestOrder
  import opened TestRepeats
  import opened TestLeftovers

  const WORK := Step(0, Execute, 0, true)
  const WAIT := Step(1, WaitFor, 0, false)

  // User code that does nothing, and user code that calls set_fail().
  const QUIET := Dispatch(Choice(i => Returns([], true), false, i => Returns([], true)))
  const FAILING := Dispatch(Choice(i => Returns([SetFail], true), false, i => Returns([], true)))

  lemma RunFirst(p: Program, s: State, a: Act, rest: seq<Act>)
    ensures Run(p, s, [a] + rest) == Run(p, Next(p, s, a), rest)
  {
    RunAppend(p, s, [a], rest);
    RunOfOne(p, s, a);
  }

  // ---------- an exception in SETUP ----------

  const RAISES_IN_SETUP := Attempt.Ran([], [QUIET, Dispatch(RAISING)], 0)

  // The callback of the setup step raises: the test fails, and its teardown steps stay behind.
  lemma FirstAttemptRaises(p: Program)
    requires p.setup == [WORK] && p.teardown != []
    ensures var t := RunAttempt(p, Fresh(), RAISES_IN_SETUP);
            && Legal(p, Fresh(), RAISES_IN_SETUP)
            && t == t.(stage := Teardown, verdict := Failed, steps := p.teardown, timer := NoTimer, expiring := 0,
                       monitors := [])
  {
    hide Next, Run;
    var b := Begin(Fresh(), []);
    assert b.queue == [NextStep];
    assert [QUIET, Dispatch(RAISING)] == [QUIET] + [Dispatch(RAISING)];
    RunFirst(p, b, QUIET, [Dispatch(RAISING)]);
    FirstDispatch(p, b, QUIET.choice);
    var s := Next(p, b, QUIET);
    RunOfOne(p, s, Dispatch(RAISING));
    SetupRaises(p, s);
  }

  lemma SetupRaises(p: Program, s: State)
    requires s.loop.Running? && s.queue == [NextStep] && s.stage.Setup? && s.steps == [WORK] && p.teardown != []
    ensures var t := Next(p, s, Dispatch(RAISING));
            && t.loop.Crashed? && t.stage.Teardown? && t.verdict.Failed? && t.steps == p.teardown
            && t.expiring == s.expiring
  {
    hide Crash;
    var ran := Note(Pop(s), Item.Ran(WORK));
    assert Call(ran, []) == ran;
    CrashLeavesTeardown(p, ran);
    CrashMoves(p, ran);
  }

  // The repeat starts with the teardown step, which raises too: the test is reported as passed.
  lemma RepeatAfterExceptionPasses()
    ensures var p := Program([WORK], [], [WORK]);
            var attempts := [RAISES_IN_SETUP, Attempt.Ran([], [Dispatch(RAISING)], 0)];
            && LegalFrom(p, Fresh(), attempts, 0)
            && After(p, Fresh(), attempts, 1).verdict.Failed?
            && RunRepeated(p, Fresh(), attempts, 0).verdict.Passed?
  {
    hide Run;
    var p := Program([WORK], [], [WORK]);
    FirstAttemptRaises(p);
    var t := RunAttempt(p, Fresh(), RAISES_IN_SETUP);
    var b := Begin(Prepared(t, 1), []);
    assert b.queue == [NextStep];
    PastAction(p, b);
  }

  // With a WAIT_FOR step in the teardown the repeat never ends unless a device sends something.
  lemma RepeatAfterExceptionStalls(acts: seq<Act>)
    requires Undemanding(RunAttempt(Program([WORK], [], [WAIT]), Fresh(), RAISES_IN_SETUP), acts)
    ensures var p := Program([WORK], [], [WAIT]);
            && Legal(p, Fresh(), RAISES_IN_SETUP)
            && RunAttempt(p, Fresh(), RAISES_IN_SETUP).verdict.Failed?
            && Stalled(Run(p, Begin(Prepared(RunAttempt(p, Fresh(), RAISES_IN_SETUP), 1), []), acts))
  {
    hide Run;
    var p := Program([WORK], [], [WAIT]);
    FirstAttemptRaises(p);
    assert WAIT in p.teardown;
    LeftoverWaitStalls(p, Prepared(RunAttempt(p, Fresh(), RAISES_IN_SETUP), 1), acts);
  }

  // ---------- set_fail() in a leftover step ----------

  // The parts of a running state that decide how it goes on.
  predicate At(s: State, g: Stage, steps: seq<Step>, v: Verdict, q: seq<Entry>) {
    s.loop.Running? && s.stage == g && s.steps == steps && s.verdict == v && s.queue == q
  }

  // A token for an execute step that is not the last one of its list.
  lemma WorkGoes(p: Program, s: State, g: Stage, steps: seq<Step>, v: Verdict, q: seq<Entry>)
    requires At(s, g, [WORK] + steps, v, [NextStep] + q) && steps != []
    ensures At(Next(p, s, QUIET), g, steps, v, q + [NextStep])
    ensures At(Next(p, s, FAILING), g, steps, v, q + [Fail, NextStep])
  {
    WithoutFirst(s.steps);
    var ran := Note(Pop(s), Item.Ran(WORK));
    assert Call(ran, []) == ran;
    assert Call(ran, [SetFail]) == Post(ran, Fail) by {
      assert [SetFail][1..] == [];
    }
    assert (q + [Fail]) + [NextStep] == q + [Fail, NextStep];
  }

  // A token for the last step of a phase.
  lemma LastWork(p: Program, s: State, g: Stage, v: Verdict, q: seq<Entry>)
    requires At(s, g, [WORK], v, [NextStep] + q)
    ensures exists s1 :: At(s1, g, [], v, q) && Next(p, s, QUIET) == NextStage(p, s1)
  {
    hide NextStage;
    WithoutFirst(s.steps);
    var ran := Note(Pop(s), Item.Ran(WORK));
    assert Call(ran, []) == ran;
    var s1 := Note(ran.(steps := []), Removed(WORK));
    assert At(s1, g, [], v, q) && Next(p, s, QUIET) == NextStage(p, s1);
  }

  // With an empty list for TEST, SETUP is followed by TEARDOWN, and two tokens are queued.
  lemma AfterSetup(p: Program, s: State, q: seq<Entry>)
    requires At(s, Setup, [], Passed, q) && p.test == [] && p.teardown != []
    ensures At(NextStage(p, s), Teardown, p.teardown, Passed, q + [NextStep, NextStep])
  {
    assert EnterNext(p, s).stage.Testing? && EnterNext(p, EnterNext(p, s)).stage.Teardown?;
    assert (q + [NextStep]) + [NextStep] == q + [NextStep, NextStep];
  }

  lemma AfterTeardown(p: Program, s: State, q: seq<Entry>)
    requires At(s, Teardown, [], Passed, q)
    ensures At(NextStage(p, s), Done, [], Passed, q + [Quit, NextStep])
  {
    assert EnterNext(p, s).stage.Done?;
    assert (q + [Quit]) + [NextStep] == q + [Quit, NextStep];
  }

  lemma SetupEnds(p: Program, s: State, q: seq<Entry>)
    requires At(s, Setup, [WORK], Passed, [NextStep] + q) && p.test == [] && p.teardown != []
    ensures At(Next(p, s, QUIET), Teardown, p.teardown, Passed, q + [NextStep, NextStep])
  {
    hide Next, NextStage;
    LastWork(p, s, Setup, Passed, q);
    var s1 :| At(s1, Setup, [], Passed, q) && Next(p, s, QUIET) == NextStage(p, s1);
    AfterSetup(p, s1, q);
  }

  lemma TeardownEnds(p: Program, s: State, q: seq<Entry>)
    requires At(s, Teardown, [WORK], Passed, [NextStep] + q)
    ensures At(Next(p, s, QUIET), Done, [], Passed, q + [Quit, NextStep])
  {
    hide Next, NextStage;
    LastWork(p, s, Teardown, Passed, q);
    var s1 :| At(s1, Teardown, [], Passed, q) && Next(p, s, QUIET) == NextStage(p, s1);
    AfterTeardown(p, s1, q);
  }

  lemma TokenAtDone(p: Program, s: State, v: Verdict, q: seq<Entry>)
    requires At(s, Done, [], v, [NextStep] + q)
    ensures At(Next(p, s, QUIET), Done, [], v, q + [Quit])
  {}

  // The fail entry comes before SETUP, and SETUP overwrites the verdict.
  lemma FailBeforeSetup(p: Program, s: State, v: Verdict, q: seq<Entry>)
    requires s.stage.NoStage? && s.loop.Running? && s.queue == [Fail] + q && p.setup != []
    ensures At(Next(p, s, QUIET), Setup, p.setup, Passed, q + [NextStep])
  {}

  const FAILS_EARLY := [FAILING, QUIET, QUIET, QUIET, QUIET, QUIET, QUIET, QUIET]

  lemma RunOfEight(p: Program, s: State, a: Act, b: Act, c: Act, d: Act, e: Act, f: Act, g: Act, h: Act)
    ensures Run(p, s, [a, b, c, d, e, f, g, h]) ==
            Next(p, Next(p, Next(p, Next(p, Next(p, Next(p, Next(p, Next(p, s, a), b), c), d), e), f), g), h)
  {
    hide Next;
    RunOfThree(p, s, a, b, c);
    var t := Run(p, s, [a, b, c]);
    RunOfThree(p, t, d, e, f);
    RunAppend(p, s, [a, b, c], [d, e, f]);
    var u := Run(p, t, [d, e, f]);
    RunOfOne(p, u, g);
    RunFirst(p, u, g, [h]);
    RunOfOne(p, Next(p, u, g), h);
    assert [g] + [h] == [g, h];
    assert [a, b, c] + [d, e, f] + [g, h] == [a, b, c, d, e, f, g, h];
    RunAppend(p, s, [a, b, c] + [d, e, f], [g, h]);
  }

  // A leftover step that calls set_fail(): nothing raises, every phase is then carried out, and the
  // test is reported as passed although its fail request was dispatched.
  lemma SetFailBeforeSetupPasses(p: Program, s: State)
    requires p == Program([WORK], [], [WORK, WORK])
    requires At(s, NoStage, [WORK, WORK], Failed, [NextStep])
    ensures var t := Run(p, s, FAILS_EARLY);
            t.loop.Quitted? && t.stage.Done? && t.verdict.Passed?
    ensures Fail in Dispatched(p, s, FAILS_EARLY)
  {
    hide Next, Run;
    RunOfEight(p, s, FAILING, QUIET, QUIET, QUIET, QUIET, QUIET, QUIET, QUIET);
    assert [WORK, WORK] == [WORK] + [WORK] && [NextStep] == [NextStep] + [];
    WorkGoes(p, s, NoStage, [WORK], Failed, []);
    var s1 := Next(p, s, FAILING);
    assert s1.queue == [Fail] + [NextStep];
    EarlyFailDispatched(p, s);
    FailBeforeSetup(p, s1, Failed, [NextStep]);
    var s2 := Next(p, s1, QUIET);
    SetupEnds(p, s2, [NextStep]);
    var s3 := Next(p, s2, QUIET);
    assert s3.queue == [NextStep] + [NextStep, NextStep];
    WorkGoes(p, s3, Teardown, [WORK], Passed, [NextStep, NextStep]);
    var s4 := Next(p, s3, QUIET);
    assert s4.queue == [NextStep] + [NextStep, NextStep];
    TeardownEnds(p, s4, [NextStep, NextStep]);
    var s5 := Next(p, s4, QUIET);
    assert s5.queue == [NextStep] + [NextStep, Quit, NextStep];
    TokenAtDone(p, s5, Passed, [NextStep, Quit, NextStep]);
    var s6 := Next(p, s5, QUIET);
    assert s6.queue == [NextStep] + [Quit, NextStep, Quit];
    TokenAtDone(p, s6, Passed, [Quit, NextStep, Quit]);
    var s7 := Next(p, s6, QUIET);
    assert s7.queue[0] == Quit;
    QuitEnds(p, s7);
  }

  lemma EarlyFailDispatched(p: Program, s: State)
    requires Next(p, s, FAILING).loop.Running? && Next(p, s, FAILING).queue == [Fail, NextStep]
    ensures Fail in Dispatched(p, s, FAILS_EARLY)
  {
    hide Next, Run;
    RunOfOne(p, s, FAILING);
    assert [FAILING, QUIET][..1] == [FAILING];
    assert FAILS_EARLY == [FAILING, QUIET] + FAILS_EARLY[2..];
    DispatchedAppend(p, s, [FAILING, QUIET], FAILS_EARLY[2..]);
  }

  lemma QuitEnds(p: Program, s: State)
    requires s.loop.Running? && s.queue != [] && s.queue[0].Quit?
    ensures var t := Next(p, s, QUIET);
            t == s.(loop := Quitted, queue := [], history := t.history)
  {}

  lemma RepeatAfterSetFailPasses()
    ensures var p := Program([WORK], [], [WORK, WORK]);
            var attempts := [RAISES_IN_SETUP, Attempt.Ran([], FAILS_EARLY, 0)];
            && LegalFrom(p, Fresh(), attempts, 0)
            && After(p, Fresh(), attempts, 1).verdict.Failed?
            && Fail in Dispatched(p, Begin(StartOf(p, Fresh(), attempts, 1), []), FAILS_EARLY)
            && RunRepeated(p, Fresh(), attempts, 0).verdict.Passed?
  {
    hide Run, Dispatched;
    var p := Program([WORK], [], [WORK, WORK]);
    FirstAttemptRaises(p);
    var b := Begin(Prepared(RunAttempt(p, Fresh(), RAISES_IN_SETUP), 1), []);
    assert b.queue == [NextStep];
    SetFailBeforeSetupPasses(p, b);
  }

  // ---------- a list of strings used up ----------

  const OK := "ok"

  function ListOf(texts: seq<string>): map<nat, Cell> {
    map[1 := Cell(Phrases(texts), Capture.FRESH)]
  }

  const LIST_TEST := Program([WAIT], [], [])

  // The awaited line and the timeout come at the same time.
  const MATCHES_LATE := [QUIET, QUIET, DeviceLine(0, OK), TimerExpires, TimeoutPosted, QUIET, QUIET, QUIET]
  const MATCHES_AGAIN := [QUIET, QUIET, DeviceLine(0, OK), QUIET]

  // From the start of a run to the dispatch of the line.
  lemma UpToTheLine(s: State)
    requires s.stage.NoStage? && s.steps == [] && s.loop.Running? && s.queue == [NextStep] && s.timer.NoTimer?
    ensures var p := LIST_TEST;
            var t := Next(p, Next(p, Next(p, s, QUIET), QUIET), DeviceLine(0, OK));
            && At(t, Setup, [WAIT], Passed, [Event(0, OK)]) && t.timer.Armed?
            && t.expiring == s.expiring && t.cells == s.cells && t.monitors == s.monitors
  {
    FirstDispatch(LIST_TEST, s, QUIET.choice);
  }

  lemma StraightToDone(p: Program, s: State, q: seq<Entry>)
    requires p.test == [] && p.teardown == [] && At(s, Setup, [], Passed, q)
    ensures var t := NextStage(p, s);
            && At(t, Done, [], Passed, q + [Quit, NextStep, NextStep, NextStep])
            && t.expiring == s.expiring && t.cells == s.cells && t.monitors == s.monitors
  {
    var s1 := EnterNext(p, s);
    var s2 := EnterNext(p, s1);
    assert s1.stage.Testing? && s2.stage.Teardown? && EnterNext(p, s2).stage.Done?;
    assert NextStage(p, s2) == Post(Post(EnterNext(p, s2), Quit), NextStep);
    assert (((q + [Quit]) + [NextStep]) + [NextStep]) + [NextStep] == q + [Quit, NextStep, NextStep, NextStep];
  }

  // The line takes the step and its only string; nothing is left to do.
  lemma LineTakesList(s: State, q: seq<Entry>)
    requires At(s, Setup, [WAIT], Passed, [Event(0, OK)] + q) && s.cells == ListOf([OK]) && s.monitors == []
    ensures var t := Next(LIST_TEST, s, QUIET);
            && At(t, Done, [], Passed, q + [Quit, NextStep, NextStep, NextStep])
            && t.expiring == s.expiring && t.cells == ListOf([])
  {
    hide NextStage, Contains;
    ContainsItself(OK);
    WithoutFirst(s.steps);
    var s1 := Pop(s).(cells := ListOf([]));
    assert [OK][1..] == [];
    assert s.cells[1 := Cell(Phrases([]), Capture.FRESH)] == ListOf([]);
    var s2 := Note(s1.(steps := []), Removed(WAIT));
    StraightToDone(LIST_TEST, s2, q);
    assert Scan(LIST_TEST, Pop(s), 0, OK, QUIET.choice, 0) == NextStage(LIST_TEST, s2);
  }

  lemma FailAtDone(p: Program, s: State, v: Verdict, q: seq<Entry>)
    requires At(s, Done, [], v, [Fail] + q)
    ensures At(Next(p, s, QUIET), Done, [], Failed, q + [Quit])
    ensures Next(p, s, QUIET).cells == s.cells && Next(p, s, QUIET).expiring == s.expiring
  {}

  lemma TimerGoes(p: Program, s: State, q: seq<Entry>)
    requires At(s, Setup, [WAIT], Passed, q) && s.timer.Armed? && s.expiring == 0
    ensures var t := Next(p, Next(p, s, TimerExpires), TimeoutPosted);
            && At(t, Setup, [WAIT], Passed, q + [Fail])
            && t.expiring == 0 && t.cells == s.cells && t.monitors == s.monitors
  {}

  // The acts after the timer has run out.
  lemma LineTimeoutQuit(s: State)
    requires At(s, Setup, [WAIT], Passed, [Event(0, OK), Fail])
    requires s.cells == ListOf([OK]) && s.monitors == [] && s.expiring == 0
    ensures var t := Run(LIST_TEST, s, [QUIET, QUIET, QUIET]);
            && t.loop.Quitted? && t.stage.Done? && t.steps == [] && t.verdict.Failed? && t.expiring == 0
            && t.cells == ListOf([])
  {
    hide Next, Run;
    var p := LIST_TEST;
    RunOfThree(p, s, QUIET, QUIET, QUIET);
    assert s.queue == [Event(0, OK)] + [Fail];
    LineTakesList(s, [Fail]);
    var s1 := Next(p, s, QUIET);
    assert s1.queue == [Fail] + [Quit, NextStep, NextStep, NextStep];
    FailAtDone(p, s1, Passed, [Quit, NextStep, NextStep, NextStep]);
    var s2 := Next(p, s1, QUIET);
    assert s2.queue[0] == Quit;
    QuitEnds(p, s2);
  }

  // The first attempt ends at DONE, with FAIL because of the timeout, and without its string.
  lemma FirstAttemptUsesList(s: State)
    requires s.stage.NoStage? && s.steps == [] && s.loop.Running? && s.queue == [NextStep] && s.timer.NoTimer?
    requires s.cells == ListOf([OK]) && s.monitors == [] && s.expiring == 0
    ensures var t := Run(LIST_TEST, s, MATCHES_LATE);
            && t.loop.Quitted? && t.stage.Done? && t.steps == [] && t.verdict.Failed? && t.expiring == 0
            && t.cells == ListOf([])
  {
    hide Next, Run, At;
    var p, first, timer, last := LIST_TEST, [QUIET, QUIET, DeviceLine(0, OK)], [TimerExpires, TimeoutPosted],
                                 [QUIET, QUIET, QUIET];
    assert MATCHES_LATE == first + (timer + last);
    RunAppend(p, s, first, timer + last);
    RunOfThree(p, s, QUIET, QUIET, DeviceLine(0, OK));
    UpToTheLine(s);
    var s3 := Run(p, s, first);
    RunAppend(p, s3, timer, last);
    RunFirst(p, s3, TimerExpires, [TimeoutPosted]);
    RunOfOne(p, Next(p, s3, TimerExpires), TimeoutPosted);
    assert timer == [TimerExpires] + [TimeoutPosted];
    TimerGoes(p, s3, [Event(0, OK)]);
    assert [Event(0, OK)] + [Fail] == [Event(0, OK), Fail];
    LineTimeoutQuit(Run(p, s3, timer));
  }

  // The second attempt raises on the same line.
  lemma SecondAttemptRaises(s: State)
    requires s.stage.NoStage? && s.steps == [] && s.loop.Running? && s.queue == [NextStep] && s.timer.NoTimer?
    requires s.cells == ListOf([])
    ensures var t := Run(LIST_TEST, s, MATCHES_AGAIN);
            t.loop.Crashed? && t.verdict.Failed?
  {
    hide Next, Run;
    var p := LIST_TEST;
    RunOfThree(p, s, QUIET, QUIET, DeviceLine(0, OK));
    assert MATCHES_AGAIN == [QUIET, QUIET, DeviceLine(0, OK)] + [QUIET];
    RunAppend(p, s, [QUIET, QUIET, DeviceLine(0, OK)], [QUIET]);
    UpToTheLine(s);
    var t := Run(p, s, [QUIET, QUIET, DeviceLine(0, OK)]);
    RunOfOne(p, t, QUIET);
    LineRaises(t);
  }

  lemma LineRaises(s: State)
    requires At(s, Setup, [WAIT], Passed, [Event(0, OK)]) && s.cells == ListOf([])
    ensures Next(LIST_TEST, s, QUIET).loop.Crashed? && Next(LIST_TEST, s, QUIET).verdict.Failed?
  {
    hide Crash, RunMonitors;
    CrashVerdict(LIST_TEST, Pop(s));
    assert Scan(LIST_TEST, Pop(s), 0, OK, QUIET.choice, 0) == Crash(LIST_TEST, Pop(s));
  }

  lemma TwoAttempts(p: Program, s: State, a: Attempt, b: Attempt)
    requires Legal(p, s, a) && RunAttempt(p, s, a).verdict.Failed? && Legal(p, Prepared(RunAttempt(p, s, a), 1), b)
    ensures LegalFrom(p, s, [a, b], 0)
    ensures RunRepeated(p, s, [a, b], 0) == RunAttempt(p, Prepared(RunAttempt(p, s, a), 1), b)
  {
    hide Legal, RunAttempt;
    var attempts, t := [a, b], RunAttempt(p, s, a);
    assert Prepared(s, 0) == s;
    var u := RunAttempt(p, Prepared(t, 1), attempts[1]);
    assert LegalFrom(p, u, attempts, 2) && RunRepeated(p, u, attempts, 2) == u;
    assert LegalFrom(p, t, attempts, 1) && RunRepeated(p, t, attempts, 1) == u;
  }

  lemma AfterFirst(p: Program, s: State, attempts: seq<Attempt>)
    requires attempts != []
    ensures After(p, s, attempts, 1) == RunAttempt(p, s, attempts[0])
    ensures StartOf(p, s, attempts, 1) == Prepared(RunAttempt(p, s, attempts[0]), 1)
  {
    assert After(p, s, attempts, 0) == s;
  }

  // The first attempt ends at DONE without an exception and the repeat starts with no step and no
  // timer left over, yet the line that was accepted before now raises.
  lemma RepeatWithUsedUpListRaises()
    ensures var s := Fresh().(cells := ListOf([OK]));
            var attempts := [Attempt.Ran([], MATCHES_LATE, 0), Attempt.Ran([], MATCHES_AGAIN, 0)];
            && LegalFrom(LIST_TEST, s, attempts, 0)
            && After(LIST_TEST, s, attempts, 1).loop.Quitted? && Startable(StartOf(LIST_TEST, s, attempts, 1))
            && !Clean(StartOf(LIST_TEST, s, attempts, 1), s.cells)
            && RunRepeated(LIST_TEST, s, attempts, 0).loop.Crashed?
  {
    hide Run, LegalFrom, RunRepeated;
    var s := Fresh().(cells := ListOf([OK]));
    assert Begin(s, []).queue == [NextStep];
    FirstAttemptUsesList(Begin(s, []));
    var attempts := [Attempt.Ran([], MATCHES_LATE, 0), Attempt.Ran([], MATCHES_AGAIN, 0)];
    AfterFirst(LIST_TEST, s, attempts);
    var t := RunAttempt(LIST_TEST, s, Attempt.Ran([], MATCHES_LATE, 0));
    assert ListOf([])[1].data.texts != ListOf([OK])[1].data.texts;
    var b := Begin(Prepared(t, 1), []);
    assert b.queue == [NextStep];
    SecondAttemptRaises(b);
    TwoAttempts(LIST_TEST, s, attempts[0], attempts[1]);
  }

  // ---------- a timeout that comes too late ----------

  const ONE_STEP := Program([WORK], [], [])
  const TIMES_OUT := [QUIET, TimerExpires]
  const FINISHES_FIRST := [QUIET, TimeoutPosted, QUIET]

  // The timer runs out in SETUP, but the last step is over before its request is queued: the test
  // passes.
  lemma LateTimeoutPasses()
    ensures var b := Begin(Fresh(), []);
            var now, t := Run(ONE_STEP, b, TIMES_OUT), Run(ONE_STEP, b, TIMES_OUT + FINISHES_FIRST);
            && now.loop.Running? && now.stage.Setup? && now.expiring == 1
            && t.loop.Quitted? && t.stage.Done? && t.verdict.Passed?
  {
    hide Run;
    var p, b := ONE_STEP, Begin(Fresh(), []);
    assert b.queue == [NextStep];
    FirstDispatch(p, b, QUIET.choice);
    assert TIMES_OUT == [QUIET] + [TimerExpires];
    RunFirst(p, b, QUIET, [TimerExpires]);
    RunOfOne(p, Next(p, b, QUIET), TimerExpires);
    var now := Run(p, b, TIMES_OUT);
    RunAppend(p, b, TIMES_OUT, FINISHES_FIRST);
    RunOfThree(p, now, QUIET, TimeoutPosted, QUIET);
    OnlyStepEnds(now);
  }

  lemma OnlyStepEnds(s: State)
    requires At(s, Setup, [WORK], Passed, [NextStep]) && s.expiring == 1
    ensures var t := Next(ONE_STEP, Next(ONE_STEP, Next(ONE_STEP, s, QUIET), TimeoutPosted), QUIET);
            t.loop.Quitted? && t.stage.Done? && t.verdict.Passed?
  {
    hide NextStage;
    var p := ONE_STEP;
    assert s.queue == [NextStep] + [];
    LastWork(p, s, Setup, Passed, []);
    var s1 :| At(s1, Setup, [], Passed, []) && Next(p, s, QUIET) == NextStage(p, s1);
    StraightToDone(p, s1, []);
    var s2 := Next(p, s, QUIET);
    hide DoNextStep;
    QuitEnds(p, Next(p, s2, TimeoutPosted));
  }
}
