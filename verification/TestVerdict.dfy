// The verdict of a run from any state before SETUP: steps of an older run may be left over, and
// timers of it may still be about to fire.
module TestVerdict {
  import opened Text
  import opened EventLoop
  import Capture
  import opened TestModel
  import opened TestHistory
  import opened TestInvariants
  import opened TestSafety
  import opened TestTheorems

  // The verdict fits the failures that came since SETUP was entered.
  predicate Tells(s: State) {
    && StageOf(s.history) == s.stage
    && (s.stage.NoStage? ==> !FailedInStage(s.history))
    && (!s.stage.NoStage? ==> s.verdict == if FailedInStage(s.history) then Failed else Passed)
  }

  // What every handler keeps, whatever state it starts from.
  ghost predicate Moves(p: Program, s: State, t: State) {
    && (Tells(s) ==> Tells(t))
    && (t.stage.NoStage? ==> s.stage.NoStage? && t.verdict == s.verdict && !t.loop.Crashed?)
    && t.expiring == s.expiring && s.queue <= t.queue && Load(p, t) <= Load(p, s)
    && !t.loop.Quitted? && SawFailure(t.history) == (SawFailure(s.history) || t.loop.Crashed?)
    && (Tells(s) && !s.stage.NoStage? ==>
          FailedInStage(t.history) == (FailedInStage(s.history) || t.loop.Crashed?))
  }

  lemma {:induction false} NextStageMoves(p: Program, s: State)
    requires s.steps == []
    ensures var t := NextStage(p, s);
            && (Tells(s) ==> Tells(t)) && !t.stage.NoStage? && t.expiring == s.expiring && t.loop == s.loop
            && s.queue <= t.queue && SawFailure(t.history) == SawFailure(s.history)
            && FailedInStage(t.history) == FailedInStage(s.history) && Load(p, t) <= Load(p, s)
    decreases 4 - Rank(s.stage)
  {
    hide Tells, SawFailure, FailedInStage, Load;
    NextStageEffect(p, s);
    if s.stage.Done? {
      PostTells(s, Quit);
    } else {
      EnterMoves(p, s);
      var s1 := EnterNext(p, s);
      if s1.steps == [] {
        NextStageMoves(p, s1);
      }
      PostTells(if s1.steps == [] then NextStage(p, s1) else s1, NextStep);
    }
  }

  lemma EnterMoves(p: Program, s: State)
    requires s.steps == [] && !s.stage.Done?
    ensures var t := EnterNext(p, s);
            && (Tells(s) ==> Tells(t)) && Rank(t.stage) > Rank(s.stage) && t.expiring == s.expiring
            && t.loop == s.loop && t.queue == s.queue && SawFailure(t.history) == SawFailure(s.history)
            && FailedInStage(t.history) == FailedInStage(s.history)
            && (t.stage.Done? ==> t.steps == [])
  {}

  lemma PostTells(s: State, e: Entry)
    ensures Tells(s) ==> Tells(Post(s, e))
  {}

  lemma FailMoves(p: Program, s: State, item: Item)
    requires IsFailure(item)
    ensures var t := DoFail(p, Note(s, item));
            && (Tells(s) ==> Tells(t)) && !t.stage.NoStage? && t.expiring == s.expiring && t.loop == s.loop
            && s.queue <= t.queue && SawFailure(t.history) && Load(p, t) <= Load(p, s)
            && (Tells(s) && !s.stage.NoStage? ==> FailedInStage(t.history))
  {
    NextStageMoves(p, Note(s, item).(verdict := Failed, steps := []));
  }

  lemma CrashMoves(p: Program, s: State)
    ensures Moves(p, s, Crash(p, s)) && Crash(p, s).loop.Crashed?
  {
    FailMoves(p, s.(loop := Crashed), Raised);
  }

  lemma RemoveMoves(p: Program, s: State, x: Step)
    requires x in s.steps && s.loop.Running?
    ensures Moves(p, s, RemoveStep(p, s, x)) && RemoveStep(p, s, x).loop.Running?
  {
    var s1 := Note(s.(steps := Without(s.steps, x)), Removed(x));
    if s1.steps == [] {
      NextStageMoves(p, s1);
    }
  }

  // User code and the capture storage.
  lemma AsideMoves(p: Program, s: State, t: State)
    requires Beside(s, t) && s.loop.Running?
    ensures Moves(p, s, t)
  {}

  lemma MovesOn(p: Program, s: State, t: State, u: State)
    requires Moves(p, s, t) && Moves(p, t, u) && !t.loop.Crashed?
    ensures Moves(p, s, u)
  {}

  lemma ParserResultMoves(p: Program, s: State, x: Step, r: Reaction)
    requires x in s.steps && s.loop.Running?
    ensures Moves(p, s, ParserResult(p, s, x, r))
  {
    hide Moves, RemoveStep, Crash;
    var s1 := Call(s, r.effects);
    CallBeside(s, r.effects);
    AsideMoves(p, s, s1);
    RemoveMoves(p, s, x);
    RemoveMoves(p, s1, x);
    CrashMoves(p, s1);
    MovesOn(p, s, s1, RemoveStep(p, s1, x));
    MovesOn(p, s, s1, Crash(p, s1));
  }

  lemma MessageMoves(p: Program, s: State, x: Step, d: Capture.MsgDescriptor, line: string, c: Choice, i: nat)
    requires x in s.steps && s.loop.Running?
    ensures Moves(p, s, DoMessage(p, s, x, d, line, c, i))
  {
    hide RemoveStep, Crash, ParserResult, Tells, SawFailure;
    var cell := CellOf(s, x);
    var (memory, complete) := Capture.Feed(d, cell.storage, line);
    var s1 := SetCell(s, x, cell.(storage := memory));
    AsideMoves(p, s, s1);
    CrashMoves(p, s1);
    ParserResultMoves(p, s1, x, c.step(i));
    MovesOn(p, s, s1, Crash(p, s1));
    var s2 := ParserResult(p, s1, x, c.step(i));
    MovesOn(p, s, s1, s2);
    if s2.loop.Running? {
      AsideMoves(p, s2, SetCell(s2, x, cell.(storage := Capture.FRESH)));
      MovesOn(p, s, s2, SetCell(s2, x, cell.(storage := Capture.FRESH)));
    }
  }

  lemma PhrasesMoves(p: Program, s: State, x: Step, c: Choice, i: nat)
    requires x in s.steps && s.loop.Running? && CellOf(s, x).data.Phrases? && CellOf(s, x).data.texts != []
    ensures Moves(p, s, DoPhrases(p, s, x, c, i))
  {
    hide Moves, RemoveStep, Crash;
    var cell := CellOf(s, x);
    var shorter := SetCell(s, x, cell.(data := Phrases(cell.data.texts[1..])));
    var r := c.step(i);
    var s1 := if !x.hasCallback then shorter else Call(if r.Returns? && r.ok then shorter else s, r.effects);
    CallBeside(if r.Returns? && r.ok then shorter else s, r.effects);
    AsideMoves(p, s, s1);
    CrashMoves(p, s1);
    RemoveMoves(p, s1, x);
    MovesOn(p, s, s1, Crash(p, s1));
    MovesOn(p, s, s1, RemoveStep(p, s1, x));
  }

  lemma {:induction false} ScanMoves(p: Program, s: State, source: nat, line: string, c: Choice, i: nat)
    requires i <= |s.steps| && s.loop.Running?
    ensures Moves(p, s, Scan(p, s, source, line, c, i))
    decreases |s.steps| - i
  {
    hide Moves, RemoveStep, Crash, DoMessage, DoPhrases, Contains;
    AsideMoves(p, s, s);
    if i < |s.steps| && s.steps[i].action.WaitFor? {
      var x := s.steps[i];
      var s1 := Call(s, c.step(i).effects);
      ScanMoves(p, s, source, line, c, i + 1);
      CrashMoves(p, s);
      match CellOf(s, x).data {
        case Phrase(text) =>
          CallBeside(s, c.step(i).effects);
          AsideMoves(p, s, s1);
          RemoveMoves(p, s, x);
          RemoveMoves(p, s1, x);
          CrashMoves(p, s1);
          ScanMoves(p, s1, source, line, c, i + 1);
          MovesOn(p, s, s1, Crash(p, s1));
          MovesOn(p, s, s1, RemoveStep(p, s1, x));
          MovesOn(p, s, s1, Scan(p, s1, source, line, c, i + 1));
        case Message(d) => MessageMoves(p, s, x, d, line, c, i);
        case Phrases(texts) =>
          if texts != [] {
            PhrasesMoves(p, s, x, c, i);
          }
        case NoData =>
      }
    }
  }

  lemma {:induction false} MonitorsMove(p: Program, s: State, source: nat, c: Choice, i: nat)
    requires i <= |s.monitors| && s.loop.Running?
    ensures Moves(p, s, RunMonitors(p, s, source, c, i))
    decreases |s.monitors| - i
  {
    hide Moves, Crash;
    AsideMoves(p, s, s);
    if i < |s.monitors| {
      var s1 := Call(s, c.monitor(i).effects);
      CallBeside(s, c.monitor(i).effects);
      AsideMoves(p, s, s1);
      CrashMoves(p, s1);
      MovesOn(p, s, s1, Crash(p, s1));
      MonitorsMove(p, s, source, c, i + 1);
      if SameNames(s.monitors, s1.monitors) {
        MonitorsMove(p, s1, source, c, i + 1);
        MovesOn(p, s, s1, RunMonitors(p, s1, source, c, i + 1));
      }
    }
  }

  lemma EventMoves(p: Program, s: State, source: nat, line: string, c: Choice)
    requires s.loop.Running?
    ensures Moves(p, s, DoEvent(p, s, source, line, c))
  {
    hide Scan, RunMonitors, Tells, SawFailure;
    ScanMoves(p, s, source, line, c, 0);
    var s1 := Scan(p, s, source, line, c, 0);
    if !s1.loop.Crashed? {
      MonitorsMove(p, s1, source, c, 0);
      MovesOn(p, s, s1, RunMonitors(p, s1, source, c, 0));
    }
  }

  lemma RanMoves(p: Program, s: State, x: Step)
    requires s.loop.Running?
    ensures Moves(p, s, Note(s, Ran(x)))
  {}

  lemma NextStepMoves(p: Program, s: State, c: Choice)
    requires s.loop.Running?
    ensures Moves(p, s, DoNextStep(p, s, c))
  {
    hide RemoveStep, Crash, NextStage, Load, Tells, SawFailure, Moves;
    AsideMoves(p, s, s);
    if s.steps == [] {
      NextStageStep(p, s);
    } else {
      var x := s.steps[0];
      var ran := Note(s, Ran(x));
      var (s1, raised) := RunAction(s, x, c.step(0));
      var called := Call(ran, c.step(0).effects);
      RanMoves(p, s, x);
      CallBeside(ran, c.step(0).effects);
      AsideMoves(p, ran, called);
      MovesOn(p, s, ran, called);
      CrashMoves(p, s1);
      RemoveMoves(p, s1, x);
      MovesOn(p, s, s1, Crash(p, s1));
      MovesOn(p, s, s1, RemoveStep(p, s1, x));
    }
  }

  lemma NextStageStep(p: Program, s: State)
    requires s.steps == [] && s.loop.Running?
    ensures Moves(p, s, NextStage(p, s))
  {
    hide NextStage, Tells, SawFailure, Load;
    NextStageMoves(p, s);
  }

  // ---------- runs ----------

  // The act brings a failure.
  ghost predicate NewFailure(s: State, a: Act, t: State) {
    (t.loop.Crashed? && !s.loop.Crashed?) || (a.Dispatch? && s.loop.Running? && s.queue != [] && s.queue[0].Fail?)
  }

  // What one act does to the failures on record.
  ghost predicate Records(p: Program, s: State, a: Act, t: State) {
    && (Tells(s) ==> Tells(t))
    && (t.stage.NoStage? ==> s.stage.NoStage? && t.verdict == s.verdict && (t.loop.Crashed? ==> s.loop.Crashed?))
    && SawFailure(t.history) == (SawFailure(s.history) || NewFailure(s, a, t))
    && (Tells(s) && !s.stage.NoStage? ==>
          FailedInStage(t.history) == (FailedInStage(s.history) || NewFailure(s, a, t)))
    && (t.stage.NoStage? ==> SawFailure(t.history) == SawFailure(s.history))
    && (!s.loop.Running? ==> t == s)
    && (a.Dispatch? ==> t.expiring == s.expiring) && Load(p, t) <= Load(p, s)
    && (t.loop.Quitted? ==> s.loop.Quitted? || Quit in s.queue)
  }

  lemma LoadReads(p: Program, s: State, t: State)
    requires t.stage == s.stage && |t.steps| == |s.steps| && t.history == s.history
    requires Tokens(t.queue) <= Tokens(s.queue)
    ensures Load(p, t) <= Load(p, s)
  {}

  // Taking a token from the queue moves it to the record.
  lemma PopLoad(p: Program, s: State)
    requires s.queue != []
    ensures Load(p, Pop(s)) == Load(p, s)
    ensures s.queue[0].Fail? ==> Load(p, s.(queue := s.queue[1..])) == Load(p, s)
  {
    assert s.queue == [s.queue[0]] + s.queue[1..];
  }

  // A handler that ran after its entry was taken from the queue.
  lemma PopThenMoves(p: Program, s: State, a: Act, t: State)
    requires a.Dispatch? && s.loop.Running? && s.queue != [] && (s.queue[0].NextStep? || s.queue[0].Event?)
    requires Moves(p, Pop(s), t)
    ensures Records(p, s, a, t)
  {
    hide Load;
    PopLoad(p, s);
  }

  lemma FailRecords(p: Program, s: State, a: Act)
    requires a.Dispatch? && s.loop.Running? && s.queue != [] && s.queue[0].Fail?
    ensures Records(p, s, a, DoFail(p, Pop(s)))
  {
    hide Load, DoFail;
    PopLoad(p, s);
    FailMoves(p, s.(queue := s.queue[1..]), Popped(Fail));
  }

  lemma QuitRecords(p: Program, s: State, a: Act)
    requires a.Dispatch? && s.loop.Running? && s.queue != [] && s.queue[0].Quit?
    ensures Records(p, s, a, Pop(s).(loop := Quitted, queue := []))
  {
    hide Load;
    PopLoad(p, s);
    LoadReads(p, Pop(s), Pop(s).(loop := Quitted, queue := []));
  }

  lemma NextTells(p: Program, s: State, a: Act)
    ensures Records(p, s, a, Next(p, s, a))
  {
    hide DoFail, DoEvent, DoNextStep;
    if s.loop.Running? && a.Dispatch? && s.queue != [] {
      hide Records, Moves;
      var s1 := Pop(s);
      match s.queue[0] {
        case NextStep =>
          NextStepMoves(p, s1, a.choice);
          PopThenMoves(p, s, a, DoNextStep(p, s1, a.choice));
        case Event(source, line) =>
          EventMoves(p, s1, source, line, a.choice);
          PopThenMoves(p, s, a, DoEvent(p, s1, source, line, a.choice));
        case Fail => FailRecords(p, s, a);
        case Quit => QuitRecords(p, s, a);
      }
    } else {
      hide Load;
      LoadReads(p, s, Next(p, s, a));
    }
  }

  lemma {:induction false} RunTells(p: Program, s: State, early: seq<Entry>, acts: seq<Act>)
    requires s.stage.NoStage?
    ensures var t := Run(p, Begin(s, early), acts);
            && Tells(t)
            && (SawFailure(t.history) <==> Fail in Dispatched(p, Begin(s, early), acts) || t.loop.Crashed?)
            && (t.stage.NoStage? ==> t.verdict == s.verdict && !SawFailure(t.history))
  {
    hide Next, Tells;
    if acts == [] {
      assert Tells(Begin(s, early)) by { TellsAtStart(s, early); }
    } else {
      var before, last := acts[..|acts| - 1], acts[|acts| - 1];
      RunTells(p, s, early, before);
      NextTells(p, Run(p, Begin(s, early), before), last);
    }
  }

  lemma TellsAtStart(s: State, early: seq<Entry>)
    requires s.stage.NoStage?
    ensures Tells(Begin(s, early))
  {}

  // A run dispatches and queues at most one token for each stage to enter and for each step to do,
  // and one to begin with; steps left over count as well.
  lemma TokensAreBounded(p: Program, s: State, early: seq<Entry>, acts: seq<Act>)
    requires s.stage.NoStage? && Arrivals(s, early)
    ensures var t := Run(p, Begin(s, early), acts);
            TokensPopped(t.history) + Tokens(t.queue) <= 5 + |s.steps| + |p.setup| + |p.test| + |p.teardown|
  {
    LoadAtMost(p, s, early, acts);
  }

  lemma {:induction false} LoadAtMost(p: Program, s: State, early: seq<Entry>, acts: seq<Act>)
    requires s.stage.NoStage? && Arrivals(s, early)
    ensures Load(p, Run(p, Begin(s, early), acts)) <= 5 + |s.steps| + |p.setup| + |p.test| + |p.teardown|
  {
    hide Next;
    if acts == [] {
      assert NextStep !in early;
    } else {
      LoadAtMost(p, s, early, acts[..|acts| - 1]);
      NextTells(p, Run(p, Begin(s, early), acts[..|acts| - 1]), acts[|acts| - 1]);
    }
  }

  // For every run from a state before SETUP, with any steps left over and any timer still on its
  // way: once SETUP was entered, the verdict is FAIL exactly when a failure came since then; until
  // then it is what it was, and no failure has come.
  lemma VerdictOfAnyRun(p: Program, s: State, early: seq<Entry>, acts: seq<Act>)
    requires s.stage.NoStage?
    ensures var t := Run(p, Begin(s, early), acts);
            && (!t.stage.NoStage? ==> t.verdict == if FailedInStage(t.history) then Failed else Passed)
            && (t.stage.NoStage? ==> t.verdict == s.verdict && !SawFailure(t.history))
  {
    RunTells(p, s, early, acts);
  }

  lemma {:induction false} FailureSomewhere(h: History)
    ensures SawFailure(h) <==> FailuresIn(h, NoStage) > 0 || FailedInStage(h)
  {
    if h.Then? {
      FailureSomewhere(h.past);
    }
  }

  // A run in which a fail entry was dispatched or an exception raised is reported as something
  // else than FAIL if and only if all that came before SETUP was entered.
  lemma WrongVerdictIff(p: Program, s: State, early: seq<Entry>, acts: seq<Act>)
    requires s.stage.NoStage?
    ensures var t := Run(p, Begin(s, early), acts);
            (Fail in Dispatched(p, Begin(s, early), acts) || t.loop.Crashed?) && !t.verdict.Failed?
            <==> FailuresIn(t.history, NoStage) > 0 && !FailedInStage(t.history)
  {
    RunTells(p, s, early, acts);
    FailureSomewhere(Run(p, Begin(s, early), acts).history);
  }
}
