// Every dispatch, and so every run, keeps the invariants.
module TestSafety {
  import opened Text
  import opened EventLoop
  import Capture
  import opened TestModel
  import opened TestHistory
  import opened Barrier
  import opened TestInvariants

  // ---------- changes outside the phase machine ----------

  // What user code and the capture storage change: the queue grows by entries other than tokens.
  predicate Beside(s: State, t: State) {
    && t == s.(queue := t.queue, monitors := t.monitors, cells := t.cells)
    && s.queue <= t.queue && Tokens(t.queue) == Tokens(s.queue)
  }

  lemma {:induction false} CallBeside(s: State, effects: seq<Effect>)
    ensures Beside(s, Call(s, effects))
    ensures Stop !in effects && QuitFits(s) ==> QuitFits(Call(s, effects))
    decreases |effects|
  {
    if effects != [] {
      CallBeside(Perform(s, effects[0]), effects[1..]);
    }
  }

  lemma BesideKeepsBase(p: Program, s: State, t: State)
    requires Core(p, s) && Settled(s) && Fits(s) && Guarded(s)
    requires Beside(s, t) && !s.stage.NoStage?
    ensures Core(p, t) && Settled(t) && Fits(t) && Guarded(t)
  {
    hide Reorders;
    SameRecord(p, s, t);
  }

  lemma BesideKeeps(p: Program, s: State, t: State)
    requires Inv(p, s) && Beside(s, t) && !s.stage.NoStage?
    ensures Inv(p, t)
  {
    hide Core, Reorders;
    BesideKeepsBase(p, s, t);
  }

  // ---------- removing a step ----------

  lemma RemoveKeepsCore(p: Program, s: State, i: nat, t: State)
    requires Core(p, s) && Settled(s) && Active(s.stage)
    requires i < |s.steps| && (i == 0 || AllWaits(s.steps[..i + 1]))
    requires t == Note(s.(steps := Without(s.steps, s.steps[i])), Removed(s.steps[i]))
    ensures Core(p, t) && Settled(t)
  {
    hide Progress;
    RemoveKeepsPhase(p, s, i, t, Setup);
    RemoveKeepsPhase(p, s, i, t, Testing);
    RemoveKeepsPhase(p, s, i, t, Teardown);
  }

  // An action step is noted as run before it is removed.
  predicate RanAhead(h: History, g: Stage, x: Step) {
    RanIn(h, g) == if g == StageOf(h) && Runs(x) then Runnable(RemovedIn(h, g)) + [x] else Runnable(RemovedIn(h, g))
  }

  predicate Due(s: State, x: Step) {
    RanAhead(s.history, Setup, x) && RanAhead(s.history, Testing, x) && RanAhead(s.history, Teardown, x)
  }

  lemma RanCaughtUp(h: History, g: Stage, x: Step)
    requires RanAhead(h, g, x)
    ensures RanAll(Then(h, Removed(x)), g)
  {
    assert (RemovedIn(h, g) + [x])[..|RemovedIn(h, g)|] == RemovedIn(h, g);
  }

  lemma RemoveEffect(p: Program, s: State, x: Step)
    requires x in s.steps && Due(s, x)
    ensures var t := Note(s.(steps := Without(s.steps, x)), Removed(x));
            RanDone(t)
  {
    RanCaughtUp(s.history, Setup, x);
    RanCaughtUp(s.history, Testing, x);
    RanCaughtUp(s.history, Teardown, x);
  }

  // With steps left, a token wakes the engine up for the next one.
  lemma TokenKeeps(p: Program, s: State)
    requires Core(p, s) && Settled(s) && Fits(s) && Guarded(s) && RanDone(s)
    requires Active(s.stage)
    ensures Inv(p, Post(s, NextStep)) && (QuitFits(s) ==> QuitFits(Post(s, NextStep)))
  {
    hide Core, RanAll;
    PostKeepsCore(p, s, NextStep);
  }

  // __remove_step, on the step at position i of the scan.
  lemma RemoveKeeps(p: Program, s: State, i: nat)
    requires Core(p, s) && Settled(s) && Fits(s) && Guarded(s) && Active(s.stage)
    requires i < |s.steps| && (i == 0 || AllWaits(s.steps[..i + 1]))
    requires Due(s, s.steps[i])
    ensures var t := RemoveStep(p, s, s.steps[i]);
            Inv(p, t) && t.loop == s.loop && !t.stage.NoStage?
            && SawFailure(t.history) == SawFailure(s.history) && (QuitFits(s) ==> QuitFits(t))
            && Rank(s.stage) <= Rank(t.stage) && s.queue <= t.queue
  {
    hide Core, Reorders, RanAll, RanAhead;
    var x := s.steps[i];
    var s1 := Note(s.(steps := Without(s.steps, x)), Removed(x));
    RemoveKeepsCore(p, s, i, s1);
    RemoveEffect(p, s, x);
    if s1.steps == [] {
      NextStageKeeps(p, s1);
    } else {
      TokenKeeps(p, s1);
    }
  }

  // ---------- events ----------

  // A handler ends in a good state, with the loop either as it was or crashed; it records a
  // failure only when it crashes, and quits early only when user code asks for it.
  ghost predicate Lands(p: Program, s: State, t: State, calm: bool) {
    && Inv(p, t) && !t.loop.Quitted? && Rank(s.stage) <= Rank(t.stage) && s.queue <= t.queue
    && SawFailure(t.history) == (SawFailure(s.history) || t.loop.Crashed?)
    && (calm && QuitFits(s) ==> QuitFits(t))
  }

  ghost predicate Calm(c: Choice) {
    forall i :: Stop !in c.step(i).effects && Stop !in c.monitor(i).effects
  }

  // Removing a WAIT_FOR step that the scan reached.
  lemma RemoveWait(p: Program, s: State, i: nat)
    requires Inv(p, s) && s.loop.Running? && Active(s.stage) && i < |s.steps| && AllWaits(s.steps[..i + 1])
    ensures Lands(p, s, RemoveStep(p, s, s.steps[i]), true) && RemoveStep(p, s, s.steps[i]).loop == s.loop
  {
    hide Core, Reorders;
    assert s.steps[i] == s.steps[..i + 1][i];
    ActionDue(s, s.steps[i]);
    RemoveKeeps(p, s, i);
  }

  lemma ParserResultKeeps(p: Program, s: State, i: nat, r: Reaction)
    requires Inv(p, s) && s.loop.Running? && Active(s.stage) && i < |s.steps| && AllWaits(s.steps[..i + 1])
    ensures Lands(p, s, ParserResult(p, s, s.steps[i], r), Stop !in r.effects)
  {
    hide Inv, AllWaits;
    if !s.steps[i].hasCallback {
      RemoveWait(p, s, i);
    } else {
      var s1 := Call(s, r.effects);
      CallBeside(s, r.effects);
      BesideKeeps(p, s, s1);
      if r.Raises? {
        CrashLands(p, s1);
      } else if r.ok {
        RemoveWait(p, s1, i);
      }
    }
  }

  lemma CrashLands(p: Program, s: State)
    requires Inv(p, s) && s.loop.Running? && !s.stage.NoStage?
    ensures Lands(p, s, Crash(p, s), true) && Crash(p, s).loop.Crashed?
  {
    hide Core;
    CrashKeeps(p, s);
  }

  lemma SetCellBeside(s: State, x: Step, c: Cell)
    ensures Beside(s, SetCell(s, x, c))
  {}

  lemma MessageKeeps(p: Program, s: State, i: nat, d: Capture.MsgDescriptor, line: string, c: Choice)
    requires Inv(p, s) && s.loop.Running? && Active(s.stage) && i < |s.steps| && AllWaits(s.steps[..i + 1])
    ensures Lands(p, s, DoMessage(p, s, s.steps[i], d, line, c, i), Calm(c))
  {
    hide Inv, AllWaits, Beside;
    var x := s.steps[i];
    var cell := CellOf(s, x);
    var (memory, complete) := Capture.Feed(d, cell.storage, line);
    var s1 := SetCell(s, x, cell.(storage := memory));
    SetCellBeside(s, x, cell.(storage := memory));
    BesideKeeps(p, s, s1);
    if complete.Just? {
      if c.parserRaises {
        CrashLands(p, s1);
      } else {
        ParserResultKeeps(p, s1, i, c.step(i));
        var s2 := ParserResult(p, s1, x, c.step(i));
        SetCellBeside(s2, x, cell.(storage := Capture.FRESH));
        BesideKeeps(p, s2, SetCell(s2, x, cell.(storage := Capture.FRESH)));
      }
    }
  }

  lemma PhrasesKeeps(p: Program, s: State, i: nat, c: Choice)
    requires Inv(p, s) && s.loop.Running? && Active(s.stage) && i < |s.steps| && AllWaits(s.steps[..i + 1])
    requires CellOf(s, s.steps[i]).data.Phrases? && CellOf(s, s.steps[i]).data.texts != []
    ensures Lands(p, s, DoPhrases(p, s, s.steps[i], c, i), Calm(c))
  {
    hide Inv, AllWaits, Beside;
    var x := s.steps[i];
    var cell := CellOf(s, x);
    var shorter := SetCell(s, x, cell.(data := Phrases(cell.data.texts[1..])));
    SetCellBeside(s, x, cell.(data := Phrases(cell.data.texts[1..])));
    BesideKeeps(p, s, shorter);
    if !x.hasCallback {
      RemoveWait(p, shorter, i);
    } else {
      var r := c.step(i);
      var s0 := if r.Returns? && r.ok then shorter else s;
      CallBeside(s0, r.effects);
      BesideKeeps(p, s0, Call(s0, r.effects));
      if r.Raises? {
        CrashLands(p, Call(s, r.effects));
      } else {
        RemoveWait(p, Call(s0, r.effects), i);
      }
    }
  }

  lemma {:induction false} ScanKeeps(p: Program, s: State, source: nat, line: string, c: Choice, i: nat)
    requires Inv(p, s) && s.loop.Running? && (s.steps != [] <==> Active(s.stage))
    requires i <= |s.steps| && AllWaits(s.steps[..i])
    ensures Lands(p, s, Scan(p, s, source, line, c, i), Calm(c))
    ensures s.stage.NoStage? ==> Scan(p, s, source, line, c, i) == s
    decreases |s.steps| - i
  {
    hide Inv, Contains, RemoveStep, DoMessage, DoPhrases, Crash;
    if i < |s.steps| && s.steps[i].action.WaitFor? {
      var x := s.steps[i];
      assert s.steps[..i + 1] == s.steps[..i] + [x];
      ScanKeeps(p, s, source, line, c, i + 1);
      if x.source == source {
        match CellOf(s, x).data {
          case Phrase(text) =>
            var s1 := Call(s, c.step(i).effects);
            CallBeside(s, c.step(i).effects);
            BesideKeeps(p, s, s1);
            RemoveWait(p, s, i);
            RemoveWait(p, s1, i);
            CrashLands(p, s1);
            ScanKeeps(p, s1, source, line, c, i + 1);
          case Message(d) =>
            MessageKeeps(p, s, i, d, line, c);
          case Phrases(texts) =>
            CrashLands(p, s);
            if texts != [] {
              PhrasesKeeps(p, s, i, c);
            }
          case NoData =>
            CrashLands(p, s);
        }
      }
    }
  }

  lemma {:induction false} MonitorsKeep(p: Program, s: State, source: nat, c: Choice, i: nat)
    requires Inv(p, s) && s.loop.Running? && i <= |s.monitors| && (s.stage.NoStage? ==> s.monitors == [])
    ensures Lands(p, s, RunMonitors(p, s, source, c, i), Calm(c))
    decreases |s.monitors| - i
  {
    hide Inv, Crash, Beside;
    if i < |s.monitors| {
      var s1 := Call(s, c.monitor(i).effects);
      CallBeside(s, c.monitor(i).effects);
      BesideKeeps(p, s, s1);
      CrashLands(p, s1);
      MonitorsKeep(p, s, source, c, i + 1);
      if SameNames(s.monitors, s1.monitors) {
        MonitorsKeep(p, s1, source, c, i + 1);
      }
    }
  }

  lemma EventKeeps(p: Program, s: State, source: nat, line: string, c: Choice)
    requires Inv(p, s) && s.loop.Running?
    ensures Lands(p, s, DoEvent(p, s, source, line, c), Calm(c))
  {
    hide Core, Reorders, Scan, RunMonitors;
    ScanKeeps(p, s, source, line, c, 0);
    var s1 := Scan(p, s, source, line, c, 0);
    if !s1.loop.Crashed? {
      MonitorsKeep(p, s1, source, c, 0);
    }
  }

  // ---------- tokens ----------

  // Notes that no reading of the history except the run steps and the tokens depends on.
  predicate Neutral(item: Item) {
    item.Ran? || (item.Popped? && item.entry != Fail)
  }

  lemma NoteKeepsCore(p: Program, s: State, item: Item)
    requires Core(p, s) && Settled(s) && Neutral(item)
    ensures Core(p, Note(s, item)) && Settled(Note(s, item))
  {
    hide Reorders;
    var t := Note(s, item);
    forall g | Active(g) && Reached(s.history, s.stage, g)
      ensures exists rest :: Progress(p, t, g, rest)
    {
      var rest :| Progress(p, s, g, rest);
      assert Progress(p, t, g, rest);
    }
  }

  // The state after the write or the callback of the action step at the head of the list.
  ghost predicate AfterAction(p: Program, s: State, t: State) {
    && Core(p, t) && Settled(t) && Fits(t) && Guarded(t)
    && t.steps == s.steps && t.stage == s.stage && t.loop == s.loop
    && s.steps != [] && Due(t, s.steps[0]) && SawFailure(t.history) == SawFailure(s.history)
  }

  lemma RanKeeps(p: Program, s: State)
    requires Base(p, s) && s.loop.Running? && Active(s.stage) && Runs(s.steps[0])
    ensures AfterAction(p, s, Note(s, Ran(s.steps[0])))
  {
    hide Core, RanAll, RanAhead, SawFailure;
    NoteKeepsCore(p, s, Ran(s.steps[0]));
    ActionDue(s, s.steps[0]);
    RanEffect(p, s, s.steps[0]);
  }

  lemma RanEffect(p: Program, s: State, x: Step)
    ensures SawFailure(Note(s, Ran(x)).history) == SawFailure(s.history)
    ensures Core(p, s) ==> StageOf(s.history) == s.stage
  {
    hide PhaseInv;
  }

  lemma CallAfterAction(p: Program, s: State, t: State, u: State)
    requires AfterAction(p, s, t) && Active(s.stage) && Beside(t, u)
    ensures AfterAction(p, s, u)
  {
    hide Core, Reorders, RanAhead, RanAll;
    BesideKeepsBase(p, t, u);
  }

  lemma ActionKeeps(p: Program, s: State, r: Reaction)
    requires Base(p, s) && s.loop.Running? && Active(s.stage) && IsAction(s.steps[0])
    ensures var (t, raised) := RunAction(s, s.steps[0], r);
            && AfterAction(p, s, t) && (raised ==> Runs(s.steps[0]))
            && (Stop !in r.effects && QuitFits(s) ==> QuitFits(t)) && s.queue <= t.queue
  {
    hide Core, Reorders, RanAll, RanAhead;
    var x := s.steps[0];
    if Runs(x) {
      RanKeeps(p, s);
      var s1 := Note(s, Ran(x));
      CallBeside(s1, r.effects);
      CallAfterAction(p, s, s1, Call(s1, r.effects));
    } else {
      ActionDue(s, x);
    }
  }

  lemma ActionDue(s: State, x: Step)
    requires RanDone(s) && s.loop.Running?
    ensures Runs(x) && StageOf(s.history) == s.stage ==> Due(Note(s, Ran(x)), x)
    ensures !Runs(x) ==> Due(s, x)
  {}

  lemma NextStepKeeps(p: Program, s: State, c: Choice)
    requires Base(p, s) && s.loop.Running?
    ensures Lands(p, s, DoNextStep(p, s, c), Calm(c)) && !DoNextStep(p, s, c).stage.NoStage?
  {
    hide Core, Reorders, RanAll, RanAhead;
    if s.steps == [] {
      NextStageKeeps(p, s);
    } else if IsAction(s.steps[0]) {
      var (s1, raised) := RunAction(s, s.steps[0], c.step(0));
      ActionKeeps(p, s, c.step(0));
      if raised {
        CrashAction(p, s1, s.steps[0]);
      } else {
        RemoveKeeps(p, s1, 0);
      }
    }
  }

  // The step that raised has run and is not removed.
  lemma CrashAction(p: Program, s: State, x: Step)
    requires Core(p, s) && Settled(s) && Fits(s) && Active(s.stage)
    requires s.loop.Running? && Due(s, x)
    ensures Lands(p, s, Crash(p, s), true) && Crash(p, s).loop.Crashed? && !Crash(p, s).stage.NoStage?
  {
    hide Core, Reorders, Due, RanUpTo;
    var t := Note(s.(loop := Crashed), Raised);
    assert IsFailure(Raised) && t.history == Then(s.history, Raised);
    CrashRan(p, s, x);
    FailKeeps(p, s, t);
  }

  lemma CrashRan(p: Program, s: State, x: Step)
    requires Due(s, x) && Active(s.stage)
    ensures var t := Note(s.(loop := Crashed), Raised);
            StageOf(s.history) == s.stage ==> RanDone(t)
    ensures Core(p, s) ==> StageOf(s.history) == s.stage
  {
    hide PhaseInv, Runnable;
  }

  // ---------- runs ----------

  lemma PopEffect(p: Program, s: State)
    requires s.queue != [] && RanDone(s)
    ensures RanDone(Pop(s))
    ensures forall e | e in s.queue && e != s.queue[0] :: e in Pop(s).queue
  {
    assert s.queue == [s.queue[0]] + s.queue[1..];
  }

  lemma FailDispatched(p: Program, s: State)
    requires Inv(p, s) && s.loop.Running? && s.queue != [] && s.queue[0].Fail?
    ensures var t := DoFail(p, Pop(s));
            && Inv(p, t) && t.loop.Running? && !t.stage.NoStage?
            && SawFailure(t.history) && (QuitFits(s) ==> QuitFits(t)) && s.queue[1..] <= t.queue
    ensures s.stage.Done? || Rank(DoFail(p, Pop(s)).stage) > Rank(s.stage)
  {
    hide Core, Reorders;
    PopEffect(p, s);
    assert Fail in s.queue;
    assert IsFailure(Popped(Fail)) && Pop(s).history == Then(s.history, Popped(Fail));
    FailKeeps(p, s, Pop(s));
  }

  lemma PopKeeps(p: Program, s: State)
    requires Inv(p, s) && s.queue != [] && !s.queue[0].Fail?
    ensures Base(p, Pop(s)) && (s.queue[0].Event? ==> Inv(p, Pop(s)))
    ensures SawFailure(Pop(s).history) == SawFailure(s.history)
    ensures QuitFits(s) ==> QuitFits(Pop(s))
  {
    hide Reorders, Progress;
    PopEffect(p, s);
    NoteKeepsCore(p, s.(queue := s.queue[1..]), Popped(s.queue[0])) by { SameRecord(p, s, s.(queue := s.queue[1..])); }
  }

  lemma QuitKeeps(p: Program, s: State)
    requires Base(p, s) && s.loop.Running? && !s.stage.NoStage?
    ensures Inv(p, s.(loop := Quitted, queue := []))
  {
    hide Reorders;
    var t := s.(loop := Quitted, queue := []);
    SameRecord(p, s, t);
  }

  lemma DispatchKeeps(p: Program, s: State, c: Choice)
    requires Inv(p, s) && s.loop.Running? && s.queue != []
    ensures var e, t := s.queue[0], Handle(p, Pop(s), s.queue[0], c);
            && Inv(p, t) && Rank(s.stage) <= Rank(t.stage)
            && (!e.Quit? ==> s.queue[1..] <= t.queue)
            && SawFailure(t.history) == (SawFailure(s.history) || e.Fail? || t.loop.Crashed?)
            && (t.loop.Quitted? <==> e.Quit?)
            && (Calm(c) && QuitFits(s) ==> QuitFits(t))
  {
    hide Core, Reorders, DoEvent, DoNextStep, DoFail;
    match s.queue[0] {
      case Fail => FailDispatched(p, s);
      case NextStep => PopKeeps(p, s); NextStepKeeps(p, Pop(s), c);
      case Event(source, line) => PopKeeps(p, s); EventKeeps(p, Pop(s), source, line, c);
      case Quit => PopKeeps(p, s); QuitKeeps(p, Pop(s));
    }
  }

  lemma PostKeeps(p: Program, s: State, e: Entry)
    requires Inv(p, s) && !e.NextStep? && (s.stage.NoStage? ==> e.Event?)
    ensures Inv(p, Post(s, e))
  {
    hide Reorders;
    SameRecord(p, s, Post(s, e));
  }

  // The one-step theorem: nothing that can happen to a running test breaks the invariants.
  lemma NextKeeps(p: Program, s: State, a: Act)
    requires Inv(p, s)
    ensures Inv(p, Next(p, s, a))
  {
    hide Core, Reorders, Handle;
    if s.loop.Running? {
      match a {
        case DeviceLine(source, line) => PostKeeps(p, s, Event(source, line));
        case TimerExpires => 
          if s.timer.Armed? { ExpireKeeps(p, s); }
        case TimeoutPosted =>
          if s.expiring > 0 { TimeoutKeeps(p, s); }
        case Dispatch(c) =>
          if s.queue != [] { DispatchKeeps(p, s, c); }
      }
    }
  }

  lemma ExpireKeeps(p: Program, s: State)
    requires Inv(p, s) && s.timer.Armed?
    ensures Inv(p, s.(timer := Fired, expiring := s.expiring + 1))
  {
    hide Reorders;
    SameRecord(p, s, s.(timer := Fired, expiring := s.expiring + 1));
  }

  lemma TimeoutKeeps(p: Program, s: State)
    requires Inv(p, s) && s.expiring > 0
    ensures Inv(p, Post(s.(expiring := s.expiring - 1), Fail))
  {
    hide Reorders;
    SameRecord(p, s, Post(s.(expiring := s.expiring - 1), Fail));
  }

  lemma BeginHolds(p: Program, s: State, early: seq<Entry>)
    requires Startable(s) && OnlyEvents(early)
    ensures Inv(p, Begin(s, early))
  {
    var t := Begin(s, early);
    assert NextStep in t.queue;
    assert NextStep !in early;
  }

  // Every state of every run from a startable state satisfies the invariants.
  lemma {:induction false} RunKeeps(p: Program, s: State, early: seq<Entry>, acts: seq<Act>)
    requires Startable(s) && OnlyEvents(early)
    ensures Inv(p, Run(p, Begin(s, early), acts))
  {
    hide Inv, Next;
    if acts == [] {
      BeginHolds(p, s, early);
    } else {
      RunKeeps(p, s, early, acts[..|acts| - 1]);
      NextKeeps(p, Run(p, Begin(s, early), acts[..|acts| - 1]), acts[|acts| - 1]);
    }
  }
}
