// Runs that start with steps or timers of an older run left over: once SETUP is entered, everything
// that holds of a run from a clean start holds again.
module TestAfterSetup {
  import opened Text
  import opened EventLoop
  import Capture
  import opened TestModel
  import opened TestHistory
  import opened Barrier
  import opened TestInvariants
  import opened TestSafety
  import opened TestTheorems
  import opened TestVerdict
  import opened TestLiveness

  // The state as if the run had begun when SETUP was entered.
  function Rebase(s: State): State {
    s.(history := SinceSetup(s.history))
  }

  // No reading of a phase sees what came before SETUP.
  lemma {:induction false} ReadingsSinceSetup(h: History, g: Stage)
    requires Active(g)
    ensures var r := SinceSetup(h);
            && StageOf(r) == StageOf(h) && Visited(r) == Visited(h) && SawFailure(r) == FailedInStage(h)
            && FailuresIn(r, g) == FailuresIn(h, g) && RemovedIn(r, g) == RemovedIn(h, g) && RanIn(r, g) == RanIn(h, g)
  {
    if h.Then? {
      ReadingsSinceSetup(h.past, g);
    }
  }

  lemma {:induction false} NothingSinceSetup(h: History)
    requires Visited(h) == []
    ensures SinceSetup(h) == Blank && StageOf(h).NoStage?
  {
    if h.Then? {
      NothingSinceSetup(h.past);
    }
  }

  // ---------- the engine does not read the history ----------

  // SETUP was entered, and the history says so.
  predicate Under(s: State) {
    !s.stage.NoStage? && StageOf(s.history) == s.stage
  }

  // Doing something and forgetting what came before SETUP go in either order.
  predicate Same(t: State, u: State) {
    Under(t) && Rebase(t) == u
  }

  lemma {:induction false} NextStageSame(p: Program, s: State)
    requires s.steps == [] && StageOf(s.history) == s.stage
    ensures Same(NextStage(p, s), NextStage(p, Rebase(s)))
    decreases 4 - Rank(s.stage)
  {
    if !s.stage.Done? {
      EnterEffect(p, s);
      EnterSame(p, s);
      if EnterNext(p, s).steps == [] {
        NextStageSame(p, EnterNext(p, s));
      }
    }
  }

  lemma EnterSame(p: Program, s: State)
    requires !s.stage.Done?
    ensures Same(EnterNext(p, s), EnterNext(p, Rebase(s)))
  {}

  lemma FailSame(p: Program, s: State)
    requires StageOf(s.history) == s.stage
    ensures Same(DoFail(p, s), DoFail(p, Rebase(s)))
  {
    NextStageSame(p, s.(verdict := Failed, steps := []));
  }

  lemma NoteSame(s: State, item: Item)
    requires Under(s) && !item.Entered?
    ensures Same(Note(s, item), Note(Rebase(s), item))
  {}

  lemma CrashSame(p: Program, s: State)
    requires Under(s)
    ensures Same(Crash(p, s), Crash(p, Rebase(s)))
  {
    hide DoFail;
    NoteSame(s.(loop := Crashed), Raised);
    FailSame(p, Note(s.(loop := Crashed), Raised));
  }

  lemma RemoveSame(p: Program, s: State, x: Step)
    requires Under(s) && x in s.steps
    ensures Same(RemoveStep(p, s, x), RemoveStep(p, Rebase(s), x))
  {
    hide NextStage;
    var s1 := Note(s.(steps := Without(s.steps, x)), Removed(x));
    NoteSame(s.(steps := Without(s.steps, x)), Removed(x));
    if s1.steps == [] {
      NextStageSame(p, s1);
    }
  }

  lemma {:induction false} CallSame(s: State, effects: seq<Effect>)
    ensures Rebase(Call(s, effects)) == Call(Rebase(s), effects)
    decreases |effects|
  {
    if effects != [] {
      CallSame(Perform(s, effects[0]), effects[1..]);
    }
  }

  lemma NextStepSame(p: Program, s: State, c: Choice)
    requires Under(s)
    ensures Same(DoNextStep(p, s, c), DoNextStep(p, Rebase(s), c))
  {
    hide RemoveStep, Crash, NextStage;
    if s.steps == [] {
      NextStageSame(p, s);
    } else {
      var x := s.steps[0];
      var (s1, raised) := RunAction(s, x, c.step(0));
      NoteSame(s, Ran(x));
      CallSame(Note(s, Ran(x)), c.step(0).effects);
      assert Under(s1) && RunAction(Rebase(s), x, c.step(0)) == (Rebase(s1), raised);
      CrashSame(p, s1);
      RemoveSame(p, s1, x);
    }
  }

  lemma ParserResultSame(p: Program, s: State, x: Step, r: Reaction)
    requires Under(s) && x in s.steps
    ensures Same(ParserResult(p, s, x, r), ParserResult(p, Rebase(s), x, r))
  {
    hide RemoveStep, Crash;
    var s1 := Call(s, r.effects);
    CallSame(s, r.effects);
    CrashSame(p, s1);
    RemoveSame(p, s, x);
    RemoveSame(p, s1, x);
  }

  lemma MessageSame(p: Program, s: State, x: Step, d: Capture.MsgDescriptor, line: string, c: Choice, i: nat)
    requires Under(s) && x in s.steps
    ensures Same(DoMessage(p, s, x, d, line, c, i), DoMessage(p, Rebase(s), x, d, line, c, i))
  {
    hide ParserResult, Crash;
    var cell := CellOf(s, x);
    var s1 := SetCell(s, x, cell.(storage := Capture.Feed(d, cell.storage, line).0));
    CrashSame(p, s1);
    ParserResultSame(p, s1, x, c.step(i));
  }

  lemma PhrasesSame(p: Program, s: State, x: Step, c: Choice, i: nat)
    requires Under(s) && x in s.steps && CellOf(s, x).data.Phrases? && CellOf(s, x).data.texts != []
    ensures Same(DoPhrases(p, s, x, c, i), DoPhrases(p, Rebase(s), x, c, i))
  {
    hide RemoveStep, Crash;
    var cell, r := CellOf(s, x), c.step(i);
    var shorter := SetCell(s, x, cell.(data := Phrases(cell.data.texts[1..])));
    CallSame(s, r.effects);
    CallSame(shorter, r.effects);
    CrashSame(p, Call(s, r.effects));
    RemoveSame(p, shorter, x);
    RemoveSame(p, Call(s, r.effects), x);
    RemoveSame(p, Call(shorter, r.effects), x);
  }

  lemma {:induction false} ScanSame(p: Program, s: State, source: nat, line: string, c: Choice, i: nat)
    requires Under(s) && i <= |s.steps|
    ensures Same(Scan(p, s, source, line, c, i), Scan(p, Rebase(s), source, line, c, i))
    decreases |s.steps| - i
  {
    hide RemoveStep, Crash, DoMessage, DoPhrases, Contains;
    if i < |s.steps| && s.steps[i].action.WaitFor? {
      var x := s.steps[i];
      var s1 := Call(s, c.step(i).effects);
      CallSame(s, c.step(i).effects);
      CrashSame(p, s);
      CrashSame(p, s1);
      RemoveSame(p, s, x);
      RemoveSame(p, s1, x);
      ScanSame(p, s, source, line, c, i + 1);
      ScanSame(p, s1, source, line, c, i + 1);
      match CellOf(s, x).data {
        case Message(d) => MessageSame(p, s, x, d, line, c, i);
        case Phrases(texts) =>
          if texts != [] {
            PhrasesSame(p, s, x, c, i);
          }
        case _ =>
      }
    }
  }

  lemma {:induction false} MonitorsSame(p: Program, s: State, source: nat, c: Choice, i: nat)
    requires Under(s) && i <= |s.monitors|
    ensures Same(RunMonitors(p, s, source, c, i), RunMonitors(p, Rebase(s), source, c, i))
    decreases |s.monitors| - i
  {
    hide Crash;
    if i < |s.monitors| {
      var s1 := Call(s, c.monitor(i).effects);
      CallSame(s, c.monitor(i).effects);
      CrashSame(p, s1);
      MonitorsSame(p, s, source, c, i + 1);
      if SameNames(s.monitors, s1.monitors) {
        MonitorsSame(p, s1, source, c, i + 1);
      }
    }
  }

  lemma EventSame(p: Program, s: State, source: nat, line: string, c: Choice)
    requires Under(s)
    ensures Same(DoEvent(p, s, source, line, c), DoEvent(p, Rebase(s), source, line, c))
  {
    hide Scan, RunMonitors;
    ScanSame(p, s, source, line, c, 0);
    MonitorsSame(p, Scan(p, s, source, line, c, 0), source, c, 0);
  }

  lemma NextSame(p: Program, s: State, a: Act)
    requires Under(s)
    ensures Same(Next(p, s, a), Next(p, Rebase(s), a))
  {
    hide DoFail, DoEvent, DoNextStep;
    if s.loop.Running? && a.Dispatch? && s.queue != [] {
      var s1 := Pop(s);
      NoteSame(s.(queue := s.queue[1..]), Popped(s.queue[0]));
      match s.queue[0] {
        case NextStep => NextStepSame(p, s1, a.choice);
        case Event(source, line) => EventSame(p, s1, source, line, a.choice);
        case Fail => FailSame(p, s1);
        case Quit =>
      }
    }
  }

  // ---------- entering SETUP ----------

  predicate Waiting(s: State) {
    s.stage.NoStage? && Visited(s.history) == []
  }

  // Either SETUP is still to come, or the run goes on like one from a clean start.
  ghost predicate Resumes(p: Program, t: State) {
    if t.stage.NoStage? then Waiting(t) && !t.loop.Crashed? else Under(t) && Inv(p, Rebase(t))
  }

  lemma LeaveByNextStage(p: Program, s: State)
    requires Waiting(s) && s.steps == []
    ensures Resumes(p, NextStage(p, s)) && !NextStage(p, s).stage.NoStage? && NextStage(p, s).loop == s.loop
  {
    hide Inv, Core, NextStage;
    NothingSinceSetup(s.history);
    NextStageSame(p, s);
    NextStageMoves(p, s);
    BlankCore(p, Rebase(s));
    NextStageKeeps(p, Rebase(s));
  }

  lemma BlankCore(p: Program, s: State)
    requires s.stage.NoStage? && s.history == Blank
    ensures Core(p, s) && RanDone(s)
  {}

  lemma LeaveByCrash(p: Program, s: State)
    requires Waiting(s)
    ensures Resumes(p, Crash(p, s)) && Crash(p, s).loop.Crashed?
  {
    LeaveByNextStage(p, Note(s.(loop := Crashed), Raised).(verdict := Failed, steps := []));
  }

  lemma FailResumes(p: Program, s: State)
    requires Waiting(s)
    ensures Resumes(p, DoFail(p, s))
  {
    LeaveByNextStage(p, s.(verdict := Failed, steps := []));
  }

  lemma RemoveResumes(p: Program, s: State, x: Step)
    requires Waiting(s) && x in s.steps && s.loop.Running?
    ensures Resumes(p, RemoveStep(p, s, x)) && RemoveStep(p, s, x).loop.Running?
  {
    hide NextStage, Inv;
    var s1 := Note(s.(steps := Without(s.steps, x)), Removed(x));
    if s1.steps == [] {
      LeaveByNextStage(p, s1);
    }
  }

  lemma BesideResumes(p: Program, s: State, t: State)
    requires Resumes(p, s) && Beside(s, t)
    ensures Resumes(p, t)
  {
    hide Inv;
    if !s.stage.NoStage? {
      BesideKeeps(p, Rebase(s), Rebase(t));
    }
  }

  lemma MessageResumes(p: Program, s: State, x: Step, d: Capture.MsgDescriptor, line: string, c: Choice, i: nat)
    requires Waiting(s) && x in s.steps && s.loop.Running?
    ensures Resumes(p, DoMessage(p, s, x, d, line, c, i))
  {
    hide RemoveStep, Crash, Resumes, Beside;
    var cell := CellOf(s, x);
    var s1 := SetCell(s, x, cell.(storage := Capture.Feed(d, cell.storage, line).0));
    var s2 := Call(s1, c.step(i).effects);
    assert Resumes(p, s1) by { WaitingResumes(p, s1); }
    LeaveByCrash(p, s1);
    LeaveByCrash(p, s2);
    RemoveResumes(p, s1, x);
    RemoveResumes(p, s2, x);
    WaitingResumes(p, s2);
    var s3 := ParserResult(p, s1, x, c.step(i));
    SetCellBeside(s3, x, cell.(storage := Capture.FRESH));
    BesideResumes(p, s3, SetCell(s3, x, cell.(storage := Capture.FRESH)));
  }

  lemma WaitingResumes(p: Program, s: State)
    requires Waiting(s) && s.loop.Running?
    ensures Resumes(p, s)
  {}

  lemma PhrasesResumes(p: Program, s: State, x: Step, c: Choice, i: nat)
    requires Waiting(s) && x in s.steps && s.loop.Running?
    requires CellOf(s, x).data.Phrases? && CellOf(s, x).data.texts != []
    ensures Resumes(p, DoPhrases(p, s, x, c, i))
  {
    hide RemoveStep, Crash, Resumes;
    var cell, r := CellOf(s, x), c.step(i);
    var shorter := SetCell(s, x, cell.(data := Phrases(cell.data.texts[1..])));
    LeaveByCrash(p, Call(s, r.effects));
    RemoveResumes(p, shorter, x);
    RemoveResumes(p, Call(s, r.effects), x);
    RemoveResumes(p, Call(shorter, r.effects), x);
  }

  lemma {:induction false} ScanResumes(p: Program, s: State, source: nat, line: string, c: Choice, i: nat)
    requires Waiting(s) && i <= |s.steps| && s.loop.Running?
    ensures Resumes(p, Scan(p, s, source, line, c, i))
    decreases |s.steps| - i
  {
    hide RemoveStep, Crash, DoMessage, DoPhrases, Contains, Resumes;
    WaitingResumes(p, s);
    if i < |s.steps| && s.steps[i].action.WaitFor? {
      var x := s.steps[i];
      var s1 := Call(s, c.step(i).effects);
      LeaveByCrash(p, s);
      LeaveByCrash(p, s1);
      RemoveResumes(p, s, x);
      RemoveResumes(p, s1, x);
      ScanResumes(p, s, source, line, c, i + 1);
      ScanResumes(p, s1, source, line, c, i + 1);
      match CellOf(s, x).data {
        case Message(d) => MessageResumes(p, s, x, d, line, c, i);
        case Phrases(texts) =>
          if texts != [] {
            PhrasesResumes(p, s, x, c, i);
          }
        case _ =>
      }
    }
  }

  lemma {:induction false} MonitorsResume(p: Program, s: State, source: nat, c: Choice, i: nat)
    requires Waiting(s) && i <= |s.monitors| && s.loop.Running?
    ensures Resumes(p, RunMonitors(p, s, source, c, i))
    decreases |s.monitors| - i
  {
    hide Crash, Resumes;
    WaitingResumes(p, s);
    if i < |s.monitors| {
      var s1 := Call(s, c.monitor(i).effects);
      LeaveByCrash(p, s1);
      MonitorsResume(p, s, source, c, i + 1);
      if SameNames(s.monitors, s1.monitors) {
        MonitorsResume(p, s1, source, c, i + 1);
      }
    }
  }

  lemma EventResumes(p: Program, s: State, source: nat, line: string, c: Choice)
    requires Waiting(s) && s.loop.Running?
    ensures Resumes(p, DoEvent(p, s, source, line, c))
  {
    hide Scan, RunMonitors, Core;
    ScanResumes(p, s, source, line, c, 0);
    ScanMoves(p, s, source, line, c, 0);
    var s1 := Scan(p, s, source, line, c, 0);
    if s1.loop.Running? {
      if s1.stage.NoStage? {
        MonitorsResume(p, s1, source, c, 0);
      } else {
        MonitorsKeep(p, Rebase(s1), source, c, 0);
        MonitorsSame(p, s1, source, c, 0);
      }
    }
  }

  lemma NextStepResumes(p: Program, s: State, c: Choice)
    requires Waiting(s) && s.loop.Running?
    ensures Resumes(p, DoNextStep(p, s, c))
  {
    hide RemoveStep, Crash, NextStage, Resumes;
    WaitingResumes(p, s);
    if s.steps == [] {
      LeaveByNextStage(p, s);
    } else {
      var (s1, raised) := RunAction(s, s.steps[0], c.step(0));
      assert Waiting(s1) && s1.loop.Running? && s1.steps == s.steps;
      LeaveByCrash(p, s1);
      RemoveResumes(p, s1, s.steps[0]);
    }
  }

  lemma NextResumes(p: Program, s: State, a: Act)
    requires Resumes(p, s)
    ensures Resumes(p, Next(p, s, a))
  {
    hide DoFail, DoEvent, DoNextStep, Inv;
    if !s.stage.NoStage? {
      NextSame(p, s, a);
      NextKeeps(p, Rebase(s), a);
    } else if s.loop.Running? && a.Dispatch? && s.queue != [] {
      var s1 := Pop(s);
      match s.queue[0] {
        case NextStep => NextStepResumes(p, s1, a.choice);
        case Event(source, line) => EventResumes(p, s1, source, line, a.choice);
        case Fail => FailResumes(p, s1);
        case Quit =>
      }
    }
  }

  lemma {:induction false} RunResumes(p: Program, s: State, early: seq<Entry>, acts: seq<Act>)
    requires s.stage.NoStage?
    ensures Resumes(p, Run(p, Begin(s, early), acts))
  {
    hide Next;
    if acts != [] {
      RunResumes(p, s, early, acts[..|acts| - 1]);
      NextResumes(p, Run(p, Begin(s, early), acts[..|acts| - 1]), acts[|acts| - 1]);
    }
  }

  // ---------- what holds after SETUP ----------

  // From any state before SETUP, whatever is left over: once SETUP was entered, the stages follow
  // one of the two paths, there are steps exactly in the three phases, no wake-up is lost, and
  // every phase is guarded by a timeout.
  lemma ProtocolAfterSetup(p: Program, s: State, early: seq<Entry>, acts: seq<Act>)
    requires s.stage.NoStage?
    ensures var t := Run(p, Begin(s, early), acts);
            !t.stage.NoStage? ==>
              && Visited(t.history) == PathTo(t.stage, FailuresIn(t.history, Setup) > 0)
              && FailuresIn(t.history, Setup) + FailuresIn(t.history, Testing) + FailuresIn(t.history, Teardown) <= 2
              && (t.steps == [] <==> t.stage.Done?)
              && (t.loop.Running? && t.steps != [] && IsAction(t.steps[0]) ==> NextStep in t.queue)
              && (t.loop.Running? && t.stage.Done? ==> Quit in t.queue)
              && (t.loop.Running? && Active(t.stage) ==> t.timer.Armed? || t.expiring > 0 || Fail in t.queue)
              && (t.timer.NoTimer? <==> t.stage.Done?)
  {
    hide Core, Reorders;
    RunResumes(p, s, early, acts);
    var t := Run(p, Begin(s, early), acts);
    if !t.stage.NoStage? {
      CoreStages(p, Rebase(t));
      ReadingsSinceSetup(t.history, Setup);
      ReadingsSinceSetup(t.history, Testing);
      ReadingsSinceSetup(t.history, Teardown);
    }
  }

  // And the phases follow the lists of the program; the steps left over are in none of them.
  lemma PhasesAfterSetup(p: Program, s: State, early: seq<Entry>, acts: seq<Act>, g: Stage)
    requires s.stage.NoStage? && Active(g)
    ensures var t := Run(p, Begin(s, early), acts);
            !t.stage.NoStage? ==>
              && (g in Visited(t.history) ==> exists rest :: Reorders(RemovedIn(t.history, g) + rest, Phase(p, g)))
              && (FinishedClean(t, g) ==> PhaseDone(p, t.history, g))
              && (g == t.stage ==> Reorders(RemovedIn(t.history, g) + t.steps, Phase(p, g)))
              && (g !in Visited(t.history) ==> RemovedIn(t.history, g) == [])
  {
    hide Inv, Reorders;
    RunResumes(p, s, early, acts);
    var t := Run(p, Begin(s, early), acts);
    if !t.stage.NoStage? {
      PhaseFollowsList(p, Rebase(t), g);
      ReadingsSinceSetup(t.history, g);
    }
  }

  lemma {:induction false} RunSame(p: Program, s: State, acts: seq<Act>)
    requires Under(s)
    ensures Same(Run(p, s, acts), Run(p, Rebase(s), acts))
    ensures SilentSchedule(p, s, acts) ==> SilentSchedule(p, Rebase(s), acts)
  {
    hide Next;
    if acts != [] {
      RunSame(p, s, acts[..|acts| - 1]);
      NextSame(p, Run(p, s, acts[..|acts| - 1]), acts[|acts| - 1]);
    }
  }

  // And silence ends the run within the same number of acts as after a clean start.
  lemma SilenceEndsAfterSetup(p: Program, s: State, early: seq<Entry>, acts: seq<Act>, more: seq<Act>)
    requires s.stage.NoStage?
    requires var now := Run(p, Begin(s, early), acts);
             !now.stage.NoStage? && SilentSchedule(p, now, more) && |more| > Fuel(p, now)
    ensures !Run(p, Begin(s, early), acts + more).loop.Running?
  {
    hide Inv, Silent, Next;
    var now := Run(p, Begin(s, early), acts);
    RunResumes(p, s, early, acts);
    RunSame(p, now, more);
    SilentFuel(p, Rebase(now), more);
    RunAppend(p, Begin(s, early), acts, more);
  }
}
