// What a reader may rely on about whole runs of a test case: any program, any lines queued before
// the loop starts, any schedule.
module TestTheorems {
  import opened EventLoop
  import opened TestModel
  import opened TestHistory
  import opened Barrier
  import opened TestInvariants
  import opened TestSafety

  // The entries the loop took from its queue, in order.
  function Dispatched(p: Program, s: State, acts: seq<Act>): seq<Entry> {
    if acts == [] then []
    else
      var before, last := acts[..|acts| - 1], acts[|acts| - 1];
      var t := Run(p, s, before);
      if last.Dispatch? && t.loop.Running? && t.queue != []
      then Dispatched(p, s, before) + [t.queue[0]]
      else Dispatched(p, s, before)
  }

  // No callback calls stop().
  ghost predicate NobodyStops(acts: seq<Act>) {
    forall a | a in acts && a.Dispatch? :: Calm(a.choice)
  }

  // Each phase was carried out: its steps removed in an order that keeps every action step in
  // place, and its action steps run in list order.
  ghost predicate PhaseDone(p: Program, h: History, g: Stage) {
    Reorders(RemovedIn(h, g), Phase(p, g)) && RanIn(h, g) == Runnable(Phase(p, g))
  }

  ghost predicate AllPhasesDone(p: Program, h: History) {
    PhaseDone(p, h, Setup) && PhaseDone(p, h, Testing) && PhaseDone(p, h, Teardown)
  }

  // ---------- stages ----------

  lemma StageProtocol(p: Program, s: State, early: seq<Entry>, acts: seq<Act>)
    requires Startable(s) && OnlyEvents(early)
    ensures var t := Run(p, Begin(s, early), acts);
            && Visited(t.history) == PathTo(t.stage, FailuresIn(t.history, Setup) > 0)
            && FailuresIn(t.history, Setup) + FailuresIn(t.history, Testing) + FailuresIn(t.history, Teardown) <= 2
  {
    RunKeeps(p, s, early, acts);
    var t := Run(p, Begin(s, early), acts);
    CoreStages(p, t);
  }

  lemma CoreStages(p: Program, t: State)
    requires Core(p, t)
    ensures Visited(t.history) == PathTo(t.stage, FailuresIn(t.history, Setup) > 0)
    ensures FailuresIn(t.history, Setup) + FailuresIn(t.history, Testing) + FailuresIn(t.history, Teardown) <= 2
  {
    hide Progress;
  }

  // Between dispatches there are steps to do exactly in the three phases, so the branch of
  // __next_step for an empty list never leaves a phase.
  lemma StepsFitStage(p: Program, s: State, early: seq<Entry>, acts: seq<Act>)
    requires Startable(s) && OnlyEvents(early)
    ensures var t := Run(p, Begin(s, early), acts);
            t.steps == [] <==> (t.stage.NoStage? || t.stage.Done?)
  {
    RunKeeps(p, s, early, acts);
  }

  // ---------- wake-ups and timeouts ----------

  lemma NoLostWakeUp(p: Program, s: State, early: seq<Entry>, acts: seq<Act>)
    requires Startable(s) && OnlyEvents(early)
    ensures var t := Run(p, Begin(s, early), acts);
            t.loop.Running? ==>
              && (t.stage.NoStage? || (t.steps != [] && IsAction(t.steps[0])) ==> NextStep in t.queue)
              && (t.stage.Done? ==> Quit in t.queue)
  {
    RunKeeps(p, s, early, acts);
  }

  lemma AlwaysGuarded(p: Program, s: State, early: seq<Entry>, acts: seq<Act>)
    requires Startable(s) && OnlyEvents(early)
    ensures var t := Run(p, Begin(s, early), acts);
            && (t.loop.Running? && Active(t.stage) ==> t.timer.Armed? || t.expiring > 0 || Fail in t.queue)
            && (t.timer.NoTimer? <==> t.stage.NoStage? || t.stage.Done?)
  {
    RunKeeps(p, s, early, acts);
  }

  // ---------- the verdict ----------

  lemma NextRecords(p: Program, s: State, a: Act)
    requires Inv(p, s)
    ensures var t := Next(p, s, a);
            && SawFailure(t.history) ==
                 (SawFailure(s.history) || (t.loop.Crashed? && !s.loop.Crashed?)
                  || (a.Dispatch? && s.loop.Running? && s.queue != [] && s.queue[0].Fail?))
            && (!s.loop.Running? ==> t == s)
            && ((a.Dispatch? ==> Calm(a.choice)) && QuitFits(s) ==> QuitFits(t))
  {
    hide Inv, Handle;
    if s.loop.Running? && a.Dispatch? && s.queue != [] {
      DispatchKeeps(p, s, a.choice);
    }
  }

  // The failures on record are the fail entries dispatched and the exception that ended the loop.
  lemma {:induction false} FailuresOnRecord(p: Program, s: State, early: seq<Entry>, acts: seq<Act>)
    requires Startable(s) && OnlyEvents(early)
    ensures var t := Run(p, Begin(s, early), acts);
            && (SawFailure(t.history) <==> Fail in Dispatched(p, Begin(s, early), acts) || t.loop.Crashed?)
            && (NobodyStops(acts) ==> QuitFits(t))
  {
    hide Inv, Next;
    if acts == [] {
      assert Begin(s, early).history == Blank;
    } else {
      var before, last := acts[..|acts| - 1], acts[|acts| - 1];
      FailuresOnRecord(p, s, early, before);
      RunKeeps(p, s, early, before);
      NextRecords(p, Run(p, Begin(s, early), before), last);
      assert last in acts && (NobodyStops(acts) ==> NobodyStops(before));
    }
  }

  lemma EndedLeftStart(p: Program, t: State)
    requires Inv(p, t) && !t.loop.Running?
    ensures !t.stage.NoStage?
  {
    hide Core, Reorders;
  }

  // Once the first stage was entered, and so at the end of every run, the verdict is FAIL exactly
  // when a fail entry was dispatched or an exception was raised.
  lemma VerdictIsFold(p: Program, s: State, early: seq<Entry>, acts: seq<Act>)
    requires Startable(s) && OnlyEvents(early)
    ensures var t := Run(p, Begin(s, early), acts);
            && (!t.loop.Running? ==> !t.stage.NoStage?)
            && (!t.stage.NoStage? ==>
                  t.verdict ==
                  if Fail in Dispatched(p, Begin(s, early), acts) || t.loop.Crashed? then Failed else Passed)
  {
    hide Reorders, Progress;
    RunKeeps(p, s, early, acts);
    FailuresOnRecord(p, s, early, acts);
    if !Run(p, Begin(s, early), acts).loop.Running? {
      EndedLeftStart(p, Run(p, Begin(s, early), acts));
    }
  }

  // ---------- phases ----------

  // The phase was entered and left again, and no failure came in between.
  predicate FinishedClean(t: State, g: Stage) {
    g in Visited(t.history) && g != t.stage && FailuresIn(t.history, g) == 0
  }

  // A phase that no failure hit and that is over was carried out completely. A phase that a
  // failure cut short was carried out up to some point.
  lemma PhasesFollowTheLists(p: Program, s: State, early: seq<Entry>, acts: seq<Act>, g: Stage)
    requires Startable(s) && OnlyEvents(early) && Active(g)
    ensures var t := Run(p, Begin(s, early), acts);
            && (g in Visited(t.history) ==> exists rest :: Reorders(RemovedIn(t.history, g) + rest, Phase(p, g)))
            && (FinishedClean(t, g) ==> PhaseDone(p, t.history, g))
            && (g == t.stage ==> Reorders(RemovedIn(t.history, g) + t.steps, Phase(p, g)))
            && (g !in Visited(t.history) ==> RemovedIn(t.history, g) == [])
  {
    RunKeeps(p, s, early, acts);
    PhaseFollowsList(p, Run(p, Begin(s, early), acts), g);
  }

  lemma PhaseFollowsList(p: Program, t: State, g: Stage)
    requires Inv(p, t) && Active(g)
    ensures g in Visited(t.history) ==> exists rest :: Reorders(RemovedIn(t.history, g) + rest, Phase(p, g))
    ensures FinishedClean(t, g) ==> PhaseDone(p, t.history, g)
    ensures g == t.stage ==> Reorders(RemovedIn(t.history, g) + t.steps, Phase(p, g))
    ensures g !in Visited(t.history) ==> RemovedIn(t.history, g) == []
  {
    VisitedReached(p, t, g);
    if Reached(t.history, t.stage, g) {
      var rest :| Progress(p, t, g, rest);
      if g != t.stage && FailuresIn(t.history, g) == 0 {
        assert RemovedIn(t.history, g) + rest == RemovedIn(t.history, g);
        ReordersRunnable(RemovedIn(t.history, g), Phase(p, g));
      }
    }
  }

  lemma VisitedReached(p: Program, t: State, g: Stage)
    requires Core(p, t) && Active(g)
    ensures g in Visited(t.history) <==> Reached(t.history, t.stage, g)
  {
    hide Progress;
  }

  lemma {:induction false} NoFailureAnywhere(h: History, g: Stage)
    requires !SawFailure(h)
    ensures FailuresIn(h, g) == 0
  {
    if h.Then? {
      NoFailureAnywhere(h.past, g);
    }
  }

  lemma CurrentPhaseUnfinished(p: Program, t: State)
    requires Active(t.stage) && t.steps != []
    requires Reorders(RemovedIn(t.history, t.stage) + t.steps, Phase(p, t.stage))
    ensures !PhaseDone(p, t.history, t.stage)
  {}

  lemma PassedEnd(p: Program, t: State)
    requires Inv(p, t) && t.loop.Quitted? && t.verdict.Passed? && !t.stage.NoStage?
    ensures AllPhasesDone(p, t.history) <==> t.stage.Done?
    ensures t.stage.Done? ==> Visited(t.history) == [Setup, Testing, Teardown, Done]
  {
    hide Reorders, Progress;
    NoFailureAnywhere(t.history, Setup);
    NoFailureAnywhere(t.history, Testing);
    NoFailureAnywhere(t.history, Teardown);
    if t.stage.Done? {
      PhaseFollowsList(p, t, Setup);
      PhaseFollowsList(p, t, Testing);
      PhaseFollowsList(p, t, Teardown);
    } else {
      PhaseFollowsList(p, t, t.stage);
      CurrentPhaseUnfinished(p, t);
    }
  }

  // A run that ended by a quit entry with verdict PASS carried out everything if and only if it
  // got to DONE.
  lemma PassedIffDone(p: Program, s: State, early: seq<Entry>, acts: seq<Act>)
    requires Startable(s) && OnlyEvents(early)
    requires Run(p, Begin(s, early), acts).loop.Quitted? && Run(p, Begin(s, early), acts).verdict.Passed?
    ensures var t := Run(p, Begin(s, early), acts);
            && (AllPhasesDone(p, t.history) <==> t.stage.Done?)
            && (t.stage.Done? ==> Visited(t.history) == [Setup, Testing, Teardown, Done])
  {
    var t := Run(p, Begin(s, early), acts);
    RunKeeps(p, s, early, acts);
    EndedLeftStart(p, t);
    PassedEnd(p, t);
  }

  // If no callback calls stop(), a run that ended by a quit entry got to DONE, so PASS means that
  // every phase was carried out.
  lemma PassCertifiesAllPhases(p: Program, s: State, early: seq<Entry>, acts: seq<Act>)
    requires Startable(s) && OnlyEvents(early) && NobodyStops(acts)
    requires Run(p, Begin(s, early), acts).loop.Quitted?
    ensures var t := Run(p, Begin(s, early), acts);
            && t.stage.Done?
            && (t.verdict.Passed? <==> Fail !in Dispatched(p, Begin(s, early), acts))
            && (t.verdict.Passed? ==> AllPhasesDone(p, t.history))
  {
    hide AllPhasesDone;
    FailuresOnRecord(p, s, early, acts);
    VerdictIsFold(p, s, early, acts);
    if Run(p, Begin(s, early), acts).verdict.Passed? {
      PassedIffDone(p, s, early, acts);
    }
  }

  lemma RunOfThree(p: Program, s: State, a: Act, b: Act, c: Act)
    ensures Run(p, s, [a, b, c]) == Next(p, Next(p, Next(p, s, a), b), c)
  {
    assert [a, b, c][..2] == [a, b] && [a, b][..1] == [a] && [a][..0] == [];
    assert Run(p, s, [a]) == Next(p, s, a);
    assert Run(p, s, [a, b]) == Next(p, Next(p, s, a), b);
  }

  // A dispatch in which the callback of the step calls stop().
  function Stopping(): Act {
    Dispatch(Choice(i => Returns([Stop], true), false, i => Returns([], true)))
  }

  // The state of a new Test object.
  function Fresh(): State {
    State(NoStage, NotRun, [], NoTimer, 0, Running, [], [], map[], Blank)
  }

  // The first token enters SETUP.
  lemma FirstDispatch(p: Program, s: State, c: Choice)
    requires s.stage.NoStage? && s.steps == [] && s.loop.Running? && s.queue == [NextStep] && p.setup != []
    ensures var t := Next(p, s, Dispatch(c));
            t == s.(stage := Setup, verdict := Passed, steps := p.setup, timer := Armed,
                    history := Then(Then(s.history, Popped(NextStep)), Entered(Setup)))
  {
    assert s.queue[1..] + [NextStep] == s.queue;
  }

  // A token for an execute step whose callback stops the test.
  lemma StoppingStep(p: Program, s: State, x: Step)
    requires s.loop.Running? && s.queue == [NextStep] && s.steps == [x, x]
    requires x.action.Execute? && x.hasCallback
    ensures var t := Next(p, s, Stopping());
            && t.loop.Running? && t.queue == [Quit, NextStep] && t.verdict == s.verdict && t.stage == s.stage
            && Visited(t.history) == Visited(s.history)
  {
    var ran := Note(Pop(s), Ran(x));
    assert Call(ran, [Stop]) == Post(ran, Quit) by {
      assert [Stop][1..] == [];
    }
    assert Without(s.steps, x) == [x];
    assert Visited(Pop(s).history) == Visited(s.history);
    assert Visited(ran.history) == Visited(s.history);
    assert DoNextStep(p, Pop(s), Stopping().choice) == RemoveStep(p, Post(ran, Quit), x);
  }

  lemma StoppingDispatches()
    ensures Stopping().Dispatch? && Stopping() == Dispatch(Stopping().choice)
  {}

  lemma QuitDispatched(p: Program, s: State, a: Act)
    requires a.Dispatch? && s.loop.Running? && s.queue != [] && s.queue[0].Quit?
    ensures var t := Next(p, s, a);
            && t.loop.Quitted? && t.stage == s.stage && t.verdict == s.verdict
            && Visited(t.history) == Visited(s.history)
  {}

  // stop() called from a setup callback ends the run with verdict PASS although the test phase
  // was never entered.
  lemma StopGivesEmptyPass(setup: Step, p: Program)
    requires setup.action.Execute? && setup.hasCallback && p.setup == [setup, setup]
    ensures var t := Run(p, Begin(Fresh(), []), [Stopping(), Stopping(), Stopping()]);
            t.loop.Quitted? && t.verdict.Passed? && Visited(t.history) == [Setup]
  {
    hide Next, Run, Stopping;
    var s := Begin(Fresh(), []);
    assert s.queue == [NextStep];
    RunOfThree(p, s, Stopping(), Stopping(), Stopping());
    var s1 := Next(p, s, Stopping());
    assert Stopping().Dispatch? by { StoppingDispatches(); }
    FirstDispatch(p, s, Stopping().choice);
    StoppingStep(p, s1, setup);
    QuitDispatched(p, Next(p, s1, Stopping()), Stopping());
  }
}
