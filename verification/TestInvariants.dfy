// What holds in every state of every run of a test case.
module TestInvariants {
  import opened EventLoop
  import opened TestModel
  import opened TestHistory
  import opened Barrier

  predicate Active(g: Stage) {
    g in {Setup, Testing, Teardown}
  }

  // ---------- the history and the state agree ----------

  predicate Reached(h: History, at: Stage, g: Stage) {
    Rank(g) <= Rank(at) && (g.Testing? ==> FailuresIn(h, Setup) == 0)
  }

  // The steps removed in phase g, followed by some `rest`, are a reordering of the phase; while
  // no failure hit the phase, `rest` is exactly what is still to be done.
  ghost predicate Progress(p: Program, s: State, g: Stage, rest: seq<Step>) {
    && Reorders(RemovedIn(s.history, g) + rest, Phase(p, g))
    && (FailuresIn(s.history, g) == 0 ==> rest == if g == s.stage then s.steps else [])
  }

  ghost predicate PhaseInv(p: Program, s: State, g: Stage) {
    if Reached(s.history, s.stage, g)
    then FailuresIn(s.history, g) <= 1 && exists rest :: Progress(p, s, g, rest)
    else FailuresIn(s.history, g) == 0 && RemovedIn(s.history, g) == []
  }

  ghost predicate Core(p: Program, s: State) {
    && StageOf(s.history) == s.stage
    && Visited(s.history) == PathTo(s.stage, FailuresIn(s.history, Setup) > 0)
    && (!s.stage.NoStage? ==> s.verdict == if SawFailure(s.history) then Failed else Passed)
    && (s.stage.NoStage? ==> !SawFailure(s.history))
    && (s.stage.Setup? ==> (SawFailure(s.history) <==> FailuresIn(s.history, Setup) > 0))
    && (s.stage.Testing? ==> FailuresIn(s.history, Setup) == 0)
    && PhaseInv(p, s, Setup) && PhaseInv(p, s, Testing) && PhaseInv(p, s, Teardown)
  }

  // Between dispatches no failure has hit the current phase: a failure always ends its phase.
  predicate Settled(s: State) {
    Active(s.stage) ==> FailuresIn(s.history, s.stage) == 0
  }

  // ---------- steps, timer and queue fit the stage ----------

  predicate Fits(s: State) {
    && (s.steps != [] <==> Active(s.stage))
    && (s.timer != NoTimer <==> Active(s.stage))
    && (s.stage.NoStage? ==>
          s.loop.Running? && s.monitors == [] && s.expiring == 0 && Fail !in s.queue && Quit !in s.queue)
  }

  predicate Guarded(s: State) {
    s.loop.Running? && Active(s.stage) ==> s.timer.Armed? || s.expiring > 0 || Fail in s.queue
  }

  predicate Awake(s: State) {
    s.loop.Running? ==>
      && (s.stage.NoStage? ==> NextStep in s.queue)
      && (s.steps != [] && IsAction(s.steps[0]) ==> NextStep in s.queue)
      && (s.stage.Done? ==> Quit in s.queue)
  }

  // ---------- tokens ----------

  function Later(p: Program, g: Stage): nat {
    match g
    case NoStage => |p.setup| + |p.test| + |p.teardown|
    case Setup => |p.test| + |p.teardown|
    case Testing => |p.teardown|
    case _ => 0
  }

  // An upper bound on the tokens still to be queued: one for each stage to enter and each step
  // to remove.
  function Potential(p: Program, s: State): nat {
    4 - Rank(s.stage) + |s.steps| + Later(p, s.stage)
  }

  function Tokens(q: seq<Entry>): nat {
    multiset(q)[NextStep]
  }

  function Load(p: Program, s: State): nat {
    TokensPopped(s.history) + Tokens(s.queue) + Potential(p, s)
  }

  // The action steps that ran in a phase are those among its removed steps.
  predicate RanAll(h: History, g: Stage) {
    RanIn(h, g) == Runnable(RemovedIn(h, g))
  }

  // So they are in every phase, except that the step that raised ran but was not removed.
  predicate RanUpTo(s: State, g: Stage) {
    RanAll(s.history, g) || (s.loop.Crashed? && FailuresIn(s.history, g) > 0)
  }

  predicate RanDone(s: State) {
    RanUpTo(s, Setup) && RanUpTo(s, Testing) && RanUpTo(s, Teardown)
  }

  ghost predicate Base(p: Program, s: State) {
    Core(p, s) && Settled(s) && Fits(s) && Guarded(s) && RanDone(s)
  }

  ghost predicate Inv(p: Program, s: State) {
    Base(p, s) && Awake(s)
  }

  // ---------- entering stages ----------

  // Parts of the state that stage changes leave alone, and the queue only grows.
  predicate Grows(s: State, t: State) {
    && t.loop == s.loop && t.expiring == s.expiring && t.monitors == s.monitors && t.cells == s.cells
    && s.queue <= t.queue
  }

  // A legal stage change, without the rest of the engine.
  predicate Advances(p: Program, s: State, t: State) {
    && t.history == Then(s.history, Entered(t.stage)) && Rank(t.stage) > Rank(s.stage)
    && t.steps == Phase(p, t.stage)
    && (t.stage.Testing? ==> FailuresIn(s.history, Setup) == 0)
    && (s.stage.Setup? && !t.stage.Testing? ==> FailuresIn(s.history, Setup) > 0)
    && (s.stage.NoStage? ==> t.stage.Setup?) && (t.stage.Done? ==> s.stage.Teardown?)
  }

  lemma AdvanceKeepsPhase(p: Program, s: State, t: State, g: Stage)
    requires PhaseInv(p, s, g) && s.steps == [] && Active(g) && Advances(p, s, t)
    requires s.stage.Testing? ==> FailuresIn(s.history, Setup) == 0
    ensures PhaseInv(p, t, g) && (g == t.stage ==> FailuresIn(t.history, g) == 0)
  {
    hide Reorders;
    if g == t.stage {
      ReorderRefl(Phase(p, g));
      assert RemovedIn(t.history, g) + Phase(p, g) == Phase(p, g);
      assert Progress(p, t, g, Phase(p, g));
    } else if Reached(s.history, s.stage, g) {
      var rest :| Progress(p, s, g, rest);
      assert Progress(p, t, g, rest);
    }
  }

  lemma EnterAdvances(p: Program, s: State)
    requires Core(p, s) && s.steps == [] && !s.stage.Done?
    ensures Advances(p, s, EnterNext(p, s))
  {
    hide Reorders;
  }

  lemma EnterKeepsCore(p: Program, s: State)
    requires Core(p, s) && s.steps == [] && !s.stage.Done?
    ensures Core(p, EnterNext(p, s)) && Settled(EnterNext(p, s))
  {
    hide Reorders, PhaseInv;
    var t := EnterNext(p, s);
    EnterAdvances(p, s);
    AdvanceKeepsPhase(p, s, t, Setup);
    AdvanceKeepsPhase(p, s, t, Testing);
    AdvanceKeepsPhase(p, s, t, Teardown);
  }

  lemma EnterEffect(p: Program, s: State)
    requires s.steps == [] && !s.stage.Done?
    ensures var t := EnterNext(p, s);
            && Grows(s, t) && Rank(t.stage) > Rank(s.stage) && t.queue == s.queue
            && (t.timer.Armed? <==> Active(t.stage)) && (t.timer.NoTimer? <==> t.stage.Done?)
            && Load(p, t) < Load(p, s)
            && (t.stage.Done? ==> t.steps == [])
  {}

  lemma PostKeepsCore(p: Program, s: State, e: Entry)
    requires Core(p, s)
    ensures Core(p, Post(s, e))
  {
    SameRecord(p, s, Post(s, e));
  }

  // Core only looks at the stage, the verdict, the steps, the history and whether the loop crashed.
  lemma SameRecord(p: Program, s: State, t: State)
    requires Core(p, s)
    requires t.stage == s.stage && t.verdict == s.verdict && t.steps == s.steps && t.history == s.history
    requires s.loop.Crashed? ==> t.loop.Crashed?
    ensures Core(p, t)
  {
    hide Reorders;
    forall g | Active(g) && Reached(s.history, s.stage, g)
      ensures exists rest :: Progress(p, t, g, rest)
    {
      var rest :| Progress(p, s, g, rest);
      assert Progress(p, t, g, rest);
    }
  }

  lemma {:induction false} NextStageCore(p: Program, s: State)
    requires Core(p, s) && s.steps == []
    ensures Core(p, NextStage(p, s)) && Settled(NextStage(p, s))
    decreases 4 - Rank(s.stage)
  {
    hide Core;
    if s.stage.Done? {
      PostKeepsCore(p, s, Quit);
    } else {
      EnterKeepsCore(p, s);
      var s1 := EnterNext(p, s);
      var s2 := if s1.steps == [] then NextStage(p, s1) else s1;
      if s1.steps == [] {
        NextStageCore(p, s1);
      }
      PostKeepsCore(p, s2, NextStep);
    }
  }

  // Leaving a stage posts a token at each level of the recursion, and a quit entry at DONE; the
  // potential pays for the tokens.
  lemma {:induction false} NextStageEffect(p: Program, s: State)
    requires s.steps == []
    ensures var t := NextStage(p, s);
            && Grows(s, t) && Awake(t)
            && !t.stage.NoStage? && (s.stage.Done? || Rank(t.stage) > Rank(s.stage))
            && (t.steps != [] <==> Active(t.stage))
            && (Active(t.stage) ==> t.timer.Armed?)
            && (t.stage.Done? ==> t.timer == if s.stage.Done? then s.timer else NoTimer)
            && Load(p, t) <= Load(p, s)
    decreases 4 - Rank(s.stage)
  {
    if !s.stage.Done? {
      EnterEffect(p, s);
      var s1 := EnterNext(p, s);
      if s1.steps == [] {
        NextStageEffect(p, s1);
      }
    }
  }

  // A quit entry is queued only at DONE, and only there does one end the loop: what holds as long
  // as no callback asks for a stop.
  predicate QuitFits(s: State) {
    Quit in s.queue || s.loop.Quitted? ==> s.stage.Done?
  }

  lemma {:induction false} NextStageQuiet(p: Program, s: State)
    requires s.steps == []
    ensures SawFailure(NextStage(p, s).history) == SawFailure(s.history)
    ensures QuitFits(s) ==> QuitFits(NextStage(p, s))
    decreases 4 - Rank(s.stage)
  {
    if !s.stage.Done? {
      var s1 := EnterNext(p, s);
      if s1.steps == [] {
        EnterEffect(p, s);
        NextStageQuiet(p, s1);
      }
    }
  }

  lemma {:induction false} NextStageRan(p: Program, s: State)
    requires s.steps == [] && RanDone(s)
    ensures RanDone(NextStage(p, s))
    decreases 4 - Rank(s.stage)
  {
    hide RanAll, FailuresIn;
    if !s.stage.Done? {
      var s1 := EnterNext(p, s);
      EnterRan(p, s);
      if s1.steps == [] {
        EnterEffect(p, s);
        NextStageRan(p, s1);
      }
    }
  }

  lemma EnterRan(p: Program, s: State)
    requires s.steps == [] && !s.stage.Done? && RanDone(s)
    ensures RanDone(EnterNext(p, s))
  {
    hide Runnable;
  }

  // __next_stage from a state without steps restores all invariants.
  lemma NextStageKeeps(p: Program, s: State)
    requires Core(p, s) && s.steps == [] && RanDone(s)
    requires s.stage.Done? ==> s.timer.NoTimer?
    ensures var t := NextStage(p, s);
            && Inv(p, t) && Grows(s, t) && !t.stage.NoStage?
            && (s.stage.Done? || Rank(t.stage) > Rank(s.stage))
            && SawFailure(t.history) == SawFailure(s.history)
            && (QuitFits(s) ==> QuitFits(t))
  {
    hide Core, RanAll;
    NextStageQuiet(p, s);
    NextStageCore(p, s);
    NextStageEffect(p, s);
    NextStageRan(p, s);
  }

  // ---------- failures ----------

  lemma FailKeepsPhase(p: Program, s: State, t: State, g: Stage)
    requires Core(p, s) && Settled(s) && !s.stage.NoStage? && Active(g)
    requires exists item :: IsFailure(item) && t.history == Then(s.history, item)
    requires t.stage == s.stage && t.steps == []
    requires s.loop.Crashed? ==> t.loop.Crashed?
    ensures PhaseInv(p, t, g)
  {
    hide Reorders;
    if Reached(s.history, s.stage, g) {
      var rest :| Progress(p, s, g, rest);
      assert Progress(p, t, g, rest);
    }
  }

  // __fail, called with the failure just recorded, ends the phase and leaves a consistent state.
  lemma FailKeeps(p: Program, s: State, t: State)
    requires Core(p, s) && Settled(s) && !s.stage.NoStage?
    requires exists item :: IsFailure(item) && t.history == Then(s.history, item)
    requires t.stage == s.stage && t.steps == s.steps && (s.loop.Crashed? ==> t.loop.Crashed?)
    requires t.stage.Done? ==> t.timer.NoTimer?
    requires RanDone(t)
    ensures Inv(p, DoFail(p, t)) && Grows(t, DoFail(p, t))
    ensures !DoFail(p, t).stage.NoStage?
    ensures t.stage.Done? || Rank(DoFail(p, t).stage) > Rank(t.stage)
    ensures SawFailure(DoFail(p, t).history) && (QuitFits(t) ==> QuitFits(DoFail(p, t)))
  {
    hide Progress;
    var f := t.(verdict := Failed, steps := []);
    FailKeepsPhase(p, s, f, Setup);
    FailKeepsPhase(p, s, f, Testing);
    FailKeepsPhase(p, s, f, Teardown);
    NextStageKeeps(p, f);
  }

  lemma CrashKeeps(p: Program, s: State)
    requires Base(p, s) && !s.stage.NoStage?
    ensures Inv(p, Crash(p, s)) && Crash(p, s).loop.Crashed? && !Crash(p, s).stage.NoStage?
    ensures SawFailure(Crash(p, s).history) && (QuitFits(s) ==> QuitFits(Crash(p, s)))
    ensures Rank(s.stage) <= Rank(Crash(p, s).stage) && s.queue <= Crash(p, s).queue
  {
    var t := Note(s.(loop := Crashed), Raised);
    assert IsFailure(Raised) && t.history == Then(s.history, Raised);
    FailKeeps(p, s, t);
  }

  // ---------- removing a step ----------

  lemma {:induction false} IndexOfBefore(xs: seq<Step>, x: Step, i: nat)
    requires i < |xs| && xs[i] == x
    ensures IndexOf(xs, x) <= i
  {
    if xs[0] != x {
      IndexOfBefore(xs[1..], x, i - 1);
    }
  }

  // Removing a step at position i of the scan: it stood behind waits only.
  lemma RemoveProgress(p: Program, s: State, i: nat, t: State, rest: seq<Step>)
    requires Active(s.stage) && Progress(p, s, s.stage, rest) && rest == s.steps && StageOf(s.history) == s.stage
    requires i < |s.steps| && (i == 0 || AllWaits(s.steps[..i + 1]))
    requires t.history == Then(s.history, Removed(s.steps[i])) && t.stage == s.stage
    requires t.steps == Without(s.steps, s.steps[i])
    ensures Progress(p, t, s.stage, t.steps)
  {
    hide Reorders;
    var j := IndexOf(s.steps, s.steps[i]);
    IndexOfBefore(s.steps, s.steps[i], i);
    assert j != 0 ==> s.steps[..j + 1] == s.steps[..i + 1][..j + 1];
    PullForward(RemovedIn(s.history, s.stage), s.steps, j, Phase(p, s.stage));
  }

  lemma RemoveKeepsPhase(p: Program, s: State, i: nat, t: State, g: Stage)
    requires PhaseInv(p, s, g) && Active(s.stage) && Active(g) && StageOf(s.history) == s.stage
    requires FailuresIn(s.history, s.stage) == 0
    requires s.stage.Testing? ==> FailuresIn(s.history, Setup) == 0
    requires i < |s.steps| && (i == 0 || AllWaits(s.steps[..i + 1]))
    requires t.history == Then(s.history, Removed(s.steps[i])) && t.stage == s.stage
    requires t.steps == Without(s.steps, s.steps[i])
    ensures PhaseInv(p, t, g)
  {
    hide Reorders;
    if Reached(s.history, s.stage, g) {
      var rest :| Progress(p, s, g, rest);
      if g == s.stage {
        RemoveProgress(p, s, i, t, rest);
      } else {
        assert Progress(p, t, g, rest);
      }
    }
  }
}
