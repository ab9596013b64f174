// Runs that start with steps of an older run left over: where they stall, and when they report a
// failure as something else.
module TestLeftovers {
  import opened Text
  import opened EventLoop
  import opened TestModel
  import opened TestHistory
  import opened TestInvariants
  import opened TestTheorems
  import opened TestEvents
  import opened TestVerdict
  import opened TestLiveness

  // An exception in SETUP or TEST leaves the whole teardown list behind.
  lemma CrashLeavesTeardown(p: Program, s: State)
    requires s.stage in {Setup, Testing} && p.teardown != []
    ensures Crash(p, s).stage.Teardown? && Crash(p, s).steps == p.teardown && Crash(p, s).verdict.Failed?
  {}

  // ---------- stalls ----------

  predicate HasWait(steps: seq<Step>) {
    exists x :: x in steps && x.action.WaitFor?
  }

  // A state in which no stage is entered and the loop waits for a device line, or is about to,
  // with no timer to end the wait.
  predicate Stalled(s: State) {
    && s.loop.Running? && s.stage.NoStage? && s.timer.NoTimer? && s.expiring == 0
    && HasWait(s.steps) && (s.queue == [] || s.queue == [NextStep])
  }

  // No device sends anything, and user code asks for nothing and does not raise; user code is
  // only called if an action step comes before the first wait.
  ghost predicate Undemanding(s: State, acts: seq<Act>) {
    forall a | a in acts ::
      !a.DeviceLine? && (a.Dispatch? ==> Harmless(a.choice) || (s.steps != [] && s.steps[0].action.WaitFor?))
  }

  lemma WithoutFirst(steps: seq<Step>)
    requires steps != []
    ensures Without(steps, steps[0]) == steps[1..]
  {}

  // A harmless action step that is not the last leftover step.
  lemma ActionPasses(p: Program, s: State, c: Choice)
    requires s.loop.Running? && s.queue == [NextStep] && Harmless(c)
    requires |s.steps| > 1 && !s.steps[0].action.WaitFor?
    ensures var t := Next(p, s, Dispatch(c));
            t == s.(steps := s.steps[1..], queue := [NextStep], history := t.history)
  {
    hide NextStage, IndexOf, Crash;
    var x, s1 := s.steps[0], Pop(s);
    WithoutFirst(s.steps);
    assert Call(Note(s1, Ran(x)), c.step(0).effects) == Note(s1, Ran(x));
  }

  lemma StalledStep(p: Program, s: State, a: Act)
    requires Stalled(s) && !a.DeviceLine? && (a.Dispatch? ==> Harmless(a.choice) || s.steps[0].action.WaitFor?)
    ensures Stalled(Next(p, s, a)) && (s.steps[0].action.WaitFor? ==> Next(p, s, a).steps == s.steps)
  {
    var w :| w in s.steps && w.action.WaitFor?;
    if a.Dispatch? && s.queue == [NextStep] && !s.steps[0].action.WaitFor? {
      hide Next;
      assert w in s.steps[1..];
      ActionPasses(p, s, a.choice);
    } else {
      hide RemoveStep, RunAction;
    }
  }

  // A run that starts with a WAIT_FOR step left over, also behind action steps, never ends unless
  // a device sends something, or user code called before the wait asks for something or raises.
  lemma {:induction false} LeftoverWaitStalls(p: Program, s: State, acts: seq<Act>)
    requires s.stage.NoStage? && s.expiring == 0 && HasWait(s.steps) && Undemanding(s, acts)
    ensures Stalled(Run(p, Begin(s, []), acts))
    ensures s.steps[0].action.WaitFor? ==> Run(p, Begin(s, []), acts).steps == s.steps
  {
    hide Next;
    if acts != [] {
      var before, last := acts[..|acts| - 1], acts[|acts| - 1];
      assert last in acts;
      LeftoverWaitStalls(p, s, before);
      StalledStep(p, Run(p, Begin(s, []), before), last);
    }
  }

  lemma {:induction false} LeftoverActionsGo(p: Program, s: State, acts: seq<Act>)
    requires s.stage.NoStage? && s.expiring == 0 && !HasWait(s.steps) && OnlyDispatches(acts)
    ensures var t := Run(p, Begin(s, []), acts);
            t.stage.NoStage? ==>
              t.loop.Running? && t.queue == [NextStep] && |acts| <= |s.steps| && t.steps == s.steps[|acts|..]
  {
    hide Handle;
    if acts != [] {
      var before, last := acts[..|acts| - 1], acts[|acts| - 1];
      assert last in acts && OnlyDispatches(before);
      LeftoverActionsGo(p, s, before);
      var t := Run(p, Begin(s, []), before);
      NextTells(p, t, last);
      if t.stage.NoStage? {
        ActionGoes(p, t, last.choice);
      }
    }
  }

  lemma ActionGoes(p: Program, s: State, c: Choice)
    requires s.loop.Running? && s.queue == [NextStep] && !HasWait(s.steps) && Harmless(c)
    ensures var t := Next(p, s, Dispatch(c));
            t.stage.NoStage? ==> t.loop.Running? && t.queue == [NextStep] && s.steps != [] && t.steps == s.steps[1..]
  {
    hide NextStage;
    var s1 := Pop(s);
    if s.steps == [] {
      NextStageMoves(p, s1);
    } else {
      var x := s.steps[0];
      assert !x.action.WaitFor?;
      if |s.steps| > 1 {
        ActionPasses(p, s, c);
      } else {
        WithoutFirst(s.steps);
        assert Call(Note(s1, Ran(x)), c.step(0).effects) == Note(s1, Ran(x));
        NextStageMoves(p, Note(s1.(steps := []), Removed(x)));
        NextStageMoves(p, Note(Note(s1, Ran(x)).(steps := []), Removed(x)));
      }
    }
  }

  // With devices silent and user code harmless, a run that starts with steps left over gets to
  // SETUP if and only if none of them is a WAIT_FOR step. If one is, the run never ends: no stage
  // is entered, so no timeout guards the wait.
  lemma LeftoversStallIff(p: Program, s: State, acts: seq<Act>)
    requires s.stage.NoStage? && s.expiring == 0 && OnlyDispatches(acts) && |acts| > |s.steps|
    ensures Run(p, Begin(s, []), acts).stage.NoStage? <==> HasWait(s.steps)
  {
    if HasWait(s.steps) {
      LeftoverWaitStalls(p, s, acts);
    } else {
      LeftoverActionsGo(p, s, acts);
    }
  }

  // ---------- failures before SETUP ----------

  lemma {:induction false} NextStageVerdict(p: Program, s: State)
    requires s.steps == []
    ensures NextStage(p, s).verdict == if s.stage.NoStage? then Passed else s.verdict
    decreases 4 - Rank(s.stage)
  {
    if !s.stage.Done? {
      EnterEffect(p, s);
      if EnterNext(p, s).steps == [] {
        NextStageVerdict(p, EnterNext(p, s));
      }
    }
  }

  // Entering SETUP overwrites the verdict, so an exception before SETUP ends the run with PASS...
  lemma CrashVerdict(p: Program, s: State)
    ensures Crash(p, s).verdict == if s.stage.NoStage? then Passed else Failed
    ensures Crash(p, s).loop.Crashed?
  {
    NextStageVerdict(p, Note(s.(loop := Crashed), Raised).(verdict := Failed, steps := []));
    CrashRemoves(p, s);
  }

  // ... and a fail entry dispatched before SETUP is lost as well.
  lemma FailEntryVerdict(p: Program, s: State, c: Choice)
    requires s.loop.Running? && s.queue != [] && s.queue[0].Fail?
    ensures Next(p, s, Dispatch(c)).verdict == if s.stage.NoStage? then Passed else Failed
  {
    NextStageVerdict(p, Pop(s).(verdict := Failed, steps := []));
  }

  // ---------- which leftovers can mislead ----------

  // A step that calls no user code and cannot raise.
  predicate Inert(cells: map<nat, Cell>, x: Step) {
    match x.action
    case Write => false
    case Execute => !x.hasCallback
    case NoAction => true
    case WaitFor =>
      !x.hasCallback && match Lookup(cells, x).data
                        case Phrase(_) => true
                        case Phrases(texts) => texts != []
                        case _ => false
  }

  predicate AllInert(cells: map<nat, Cell>, steps: seq<Step>) {
    forall x | x in steps :: Inert(cells, x)
  }

  // No list of strings is waited for by two steps.
  predicate OwnLists(cells: map<nat, Cell>, steps: seq<Step>) {
    forall i, j | 0 <= i < j < |steps| ::
      Lookup(cells, steps[i]).data.Phrases? || Lookup(cells, steps[j]).data.Phrases? ==> steps[i].id != steps[j].id
  }

  // A failure came, and the verdict is not FAIL.
  predicate Misled(p: Program, s: State, early: seq<Entry>, acts: seq<Act>) {
    var t := Run(p, Begin(s, early), acts);
    (Fail in Dispatched(p, Begin(s, early), acts) || t.loop.Crashed?) && !t.verdict.Failed?
  }

  predicate OnlyEventsAndTokens(q: seq<Entry>) {
    forall e | e in q :: e.Event? || e.NextStep?
  }

  // Before SETUP, with no failure so far, none on its way, and no monitors.
  predicate Quiet(s: State) {
    && Tells(s) && s.stage.NoStage? && s.loop.Running? && s.timer.NoTimer? && s.expiring == 0 && s.monitors == []
    && OnlyEventsAndTokens(s.queue) && !SawFailure(s.history)
  }

  // Before SETUP nothing can fail; from then on every failure counts.
  predicate FailsInStagesOnly(s: State) {
    if s.stage.NoStage? then Quiet(s) && AllInert(s.cells, s.steps) && OwnLists(s.cells, s.steps)
    else Tells(s) && (SawFailure(s.history) ==> FailedInStage(s.history))
  }

  lemma RemoveInert(p: Program, s: State, x: Step)
    requires Quiet(s) && x in s.steps
    requires AllInert(s.cells, Without(s.steps, x)) && OwnLists(s.cells, Without(s.steps, x))
    ensures FailsInStagesOnly(RemoveStep(p, s, x)) && RemoveStep(p, s, x).loop.Running?
    ensures RemoveStep(p, s, x).monitors == []
  {
    hide NextStage, AllInert, OwnLists;
    var s1 := Note(s.(steps := Without(s.steps, x)), Removed(x));
    if s1.steps == [] {
      NextStageMoves(p, s1);
      NextStageEffect(p, s1);
    }
  }

  // Taking a step out of the list, and changing its own list of strings, leaves the others inert.
  lemma WithoutStaysInert(cells: map<nat, Cell>, steps: seq<Step>, x: Step, c: Cell)
    requires x in steps && AllInert(cells, steps) && OwnLists(cells, steps)
    ensures AllInert(cells, Without(steps, x)) && OwnLists(cells, Without(steps, x))
    ensures Lookup(cells, x).data.Phrases? ==>
              AllInert(cells[x.id := c], Without(steps, x)) && OwnLists(cells[x.id := c], Without(steps, x))
  {
    hide Inert;
    var k := IndexOf(steps, x);
    var rest := Without(steps, x);
    assert forall i | 0 <= i < |rest| :: rest[i] == steps[if i < k then i else i + 1];
    if Lookup(cells, x).data.Phrases? {
      forall y | y in rest
        ensures y.id != x.id && Inert(cells, y) && Inert(cells[x.id := c], y)
      {
        var i :| 0 <= i < |rest| && rest[i] == y;
        assert steps[if i < k then i else i + 1] == y;
        SameInert(cells, cells[x.id := c], y);
      }
    }
  }

  lemma SameInert(cells: map<nat, Cell>, other: map<nat, Cell>, x: Step)
    requires Lookup(other, x) == Lookup(cells, x)
    ensures Inert(other, x) == Inert(cells, x)
  {}

  lemma {:induction false} ScanInert(p: Program, s: State, source: nat, line: string, c: Choice, i: nat)
    requires FailsInStagesOnly(s) && s.stage.NoStage? && i <= |s.steps|
    ensures var t := Scan(p, s, source, line, c, i);
            FailsInStagesOnly(t) && t.loop.Running? && t.monitors == []
    decreases |s.steps| - i
  {
    hide RemoveStep, Without, Crash, Contains, OwnLists, Tells;
    if i < |s.steps| && s.steps[i].action.WaitFor? {
      var x := s.steps[i];
      assert Inert(s.cells, x);
      var cell := CellOf(s, x);
      var shorter := if cell.data.Phrases? then cell.(data := Phrases(cell.data.texts[1..])) else cell;
      WithoutStaysInert(s.cells, s.steps, x, shorter);
      hide AllInert;
      RemoveInert(p, s, x);
      if cell.data.Phrases? {
        assert Quiet(SetCell(s, x, shorter)) by { QuietCell(s, x, shorter); }
        RemoveInert(p, SetCell(s, x, shorter), x);
      }
      ScanInert(p, s, source, line, c, i + 1);
    }
  }

  lemma QuietCell(s: State, x: Step, c: Cell)
    requires Quiet(s)
    ensures Quiet(SetCell(s, x, c))
  {}

  lemma PopInert(s: State)
    requires FailsInStagesOnly(s) && s.stage.NoStage? && s.queue != []
    ensures FailsInStagesOnly(Pop(s)) && (s.queue[0].Event? || s.queue[0].NextStep?)
  {
    hide AllInert, OwnLists;
    assert s.queue[0] in s.queue && forall e | e in s.queue[1..] :: e in s.queue;
  }

  lemma NextStepInert(p: Program, s: State, c: Choice)
    requires FailsInStagesOnly(s) && s.stage.NoStage?
    ensures FailsInStagesOnly(DoNextStep(p, s, c))
  {
    hide RemoveStep, Without, NextStage, OwnLists;
    if s.steps == [] {
      NextStageMoves(p, s);
    } else {
      var x := s.steps[0];
      assert Inert(s.cells, x);
      WithoutStaysInert(s.cells, s.steps, x, CellOf(s, x));
      RemoveInert(p, s, x);
    }
  }

  lemma NextInert(p: Program, s: State, a: Act)
    requires FailsInStagesOnly(s)
    ensures FailsInStagesOnly(Next(p, s, a))
  {
    hide DoNextStep, Scan, AllInert, OwnLists;
    NextTells(p, s, a);
    if s.stage.NoStage? && a.Dispatch? && s.queue != [] {
      PopInert(s);
      match s.queue[0] {
        case Event(source, line) => ScanInert(p, Pop(s), source, line, a.choice, 0);
        case NextStep => NextStepInert(p, Pop(s), a.choice);
        case _ =>
      }
    }
  }

  lemma {:induction false} InertNeverMisleads(p: Program, s: State, early: seq<Entry>, acts: seq<Act>)
    requires s.stage.NoStage? && s.expiring == 0 && AllInert(s.cells, s.steps) && OwnLists(s.cells, s.steps)
    requires OnlyEvents(early)
    ensures FailsInStagesOnly(Run(p, Begin(s, early), acts))
  {
    hide Next, AllInert, OwnLists;
    if acts == [] {
      TellsAtStart(s, early);
    } else {
      InertNeverMisleads(p, s, early, acts[..|acts| - 1]);
      NextInert(p, Run(p, Begin(s, early), acts[..|acts| - 1]), acts[|acts| - 1]);
    }
  }

  // User code that raises wherever it is called.
  const RAISING := Choice(i => Raises([]), true, i => Raises([]))

  // No step waits for a message.
  predicate NoMessages(cells: map<nat, Cell>, steps: seq<Step>) {
    forall x | x in steps && x.action.WaitFor? :: !Lookup(cells, x).data.Message?
  }

  // The loop is about to do its first leftover step.
  predicate Ready(s: State) {
    && s.loop.Running? && s.stage.NoStage? && s.queue == [NextStep] && s.monitors == []
    && NoMessages(s.cells, s.steps) && OwnLists(s.cells, s.steps)
  }

  // A line that the step takes.
  function LineFor(cell: Cell): string {
    match cell.data
    case Phrase(text) => text
    case Phrases(texts) => if texts == [] then "" else texts[0]
    case _ => ""
  }

  // Acts that bring the run past the first leftover step, or make it raise.
  function Past(s: State): seq<Act>
    requires s.steps != []
  {
    var x := s.steps[0];
    if !x.action.WaitFor? then [Dispatch(RAISING)]
    else [DeviceLine(x.source, LineFor(CellOf(s, x))), Dispatch(RAISING), Dispatch(RAISING)]
  }

  lemma ContainsItself(text: string)
    ensures Contains(text, text)
  {
    assert OccursAt(text, text, 0);
  }

  lemma RunOfOne(p: Program, s: State, a: Act)
    ensures Run(p, s, [a]) == Next(p, s, a)
  {
    assert [a][..0] == [];
  }

  // The first step is gone, and the cells of the others are what they were.
  predicate FirstGone(s: State, t: State)
    requires s.steps != []
  {
    && t == s.(steps := s.steps[1..], queue := [NextStep], cells := t.cells, history := t.history)
    && forall x | x in t.steps :: CellOf(t, x) == CellOf(s, x)
  }

  lemma PastAction(p: Program, s: State)
    requires Ready(s) && s.steps != [] && !s.steps[0].action.WaitFor?
    ensures var t := Run(p, s, Past(s));
            if !Inert(s.cells, s.steps[0]) then t.loop.Crashed? && t.verdict.Passed?
            else |s.steps| > 1 ==> FirstGone(s, t)
  {
    hide NextStage, Crash, Lookup;
    var x, s1 := s.steps[0], Pop(s);
    RunOfOne(p, s, Dispatch(RAISING));
    WithoutFirst(s.steps);
    var ran := Note(s1, Ran(x));
    assert Call(ran, []) == ran;
    CrashVerdict(p, ran);
  }

  lemma PastWait(p: Program, s: State)
    requires Ready(s) && s.steps != [] && s.steps[0].action.WaitFor?
    ensures var t := Run(p, s, Past(s));
            if !Inert(s.cells, s.steps[0]) then t.loop.Crashed? && t.verdict.Passed?
            else |s.steps| > 1 ==> FirstGone(s, t)
  {
    hide DoEvent, DoNextStep, FirstGone, Inert, LineFor;
    var x, line := s.steps[0], LineFor(CellOf(s, s.steps[0]));
    RunOfThree(p, s, DeviceLine(x.source, line), Dispatch(RAISING), Dispatch(RAISING));
    var s1 := Next(p, s, DeviceLine(x.source, line));
    assert s1.queue == [NextStep, Event(x.source, line)];
    TokenAtWait(p, s1);
    var s2 := Next(p, s1, Dispatch(RAISING));
    assert s2.queue == [Event(x.source, line)];
    HeadTakes(p, s2);
    GoneFrom(s, s2, Next(p, s2, Dispatch(RAISING)));
  }

  lemma GoneFrom(s: State, t: State, u: State)
    requires s.steps != [] && t == s.(queue := t.queue, history := t.history)
    ensures FirstGone(t, u) ==> FirstGone(s, u)
  {}

  lemma TokenAtWait(p: Program, s: State)
    requires s.loop.Running? && s.queue != [] && s.queue[0].NextStep? && s.steps != [] && s.steps[0].action.WaitFor?
    ensures Next(p, s, Dispatch(RAISING)) == Pop(s)
  {}

  lemma HeadTakes(p: Program, s: State)
    requires s.loop.Running? && s.stage.NoStage? && s.monitors == [] && s.steps != [] && s.steps[0].action.WaitFor?
    requires s.queue == [Event(s.steps[0].source, LineFor(CellOf(s, s.steps[0])))]
    requires !CellOf(s, s.steps[0]).data.Message? && OwnLists(s.cells, s.steps)
    ensures var t := Next(p, s, Dispatch(RAISING));
            if !Inert(s.cells, s.steps[0]) then t.loop.Crashed? && t.verdict.Passed?
            else |s.steps| > 1 ==> FirstGone(s, t)
  {
    hide NextStage, Crash, Contains, IndexOf, OwnLists;
    var s1, line := Pop(s), LineFor(CellOf(s, s.steps[0]));
    ContainsItself(line);
    WithoutFirst(s.steps);
    assert Call(s1, []) == s1;
    CrashVerdict(p, s1);
    OthersKeepCells(s);
  }

  // The other steps do not share the list of the first one.
  lemma OthersKeepCells(s: State)
    requires s.steps != [] && OwnLists(s.cells, s.steps)
    ensures CellOf(s, s.steps[0]).data.Phrases? ==> forall x | x in s.steps[1..] :: x.id != s.steps[0].id
  {}

  lemma GoneStaysReady(s: State, t: State)
    requires Ready(s) && s.steps != [] && FirstGone(s, t)
    ensures Ready(t) && forall x | x in t.steps :: Inert(t.cells, x) == Inert(s.cells, x)
  {
    assert forall i | 0 <= i < |t.steps| :: t.steps[i] == s.steps[i + 1] && t.steps[i] in t.steps;
  }

  // Some schedule gets to the first step that is not inert, and makes it raise.
  lemma {:induction false} SomeScheduleMisleads(p: Program, s: State)
    requires Ready(s) && !AllInert(s.cells, s.steps)
    ensures exists acts :: Run(p, s, acts).loop.Crashed? && Run(p, s, acts).verdict.Passed?
    decreases |s.steps|
  {
    hide Run, Past, Inert, Ready, FirstGone;
    if s.steps[0].action.WaitFor? {
      PastWait(p, s);
    } else {
      PastAction(p, s);
    }
    if Inert(s.cells, s.steps[0]) {
      var x :| x in s.steps && !Inert(s.cells, x);
      assert x in s.steps[1..];
      var t := Run(p, s, Past(s));
      GoneStaysReady(s, t);
      assert t.steps == s.steps[1..] by { GoneSteps(s, t); }
      SomeScheduleMisleads(p, t);
      var rest :| Run(p, t, rest).loop.Crashed? && Run(p, t, rest).verdict.Passed?;
      RunAppend(p, s, Past(s), rest);
    }
  }

  lemma GoneSteps(s: State, t: State)
    requires s.steps != [] && FirstGone(s, t)
    ensures t.steps == s.steps[1..]
  {}

  lemma LateTimerMisleads(p: Program, s: State)
    requires s.stage.NoStage? && s.expiring > 0
    ensures Arrivals(s, [Fail]) && Misled(p, s, [Fail], [Dispatch(RAISING)])
  {
    hide Next;
    var b := Begin(s, [Fail]);
    assert b.queue[0] == Fail;
    RunOfOne(p, b, Dispatch(RAISING));
    FailEntryVerdict(p, b, RAISING);
    assert [Dispatch(RAISING)][..0] == [];
  }

  // For a test that waits for no message among its leftover steps and shares no list between them:
  // some run loses a failure if and only if a late timer is on its way or some leftover step calls
  // user code or can raise. In the second case the run can end like that.
  lemma LeftoversMisleadIff(p: Program, s: State)
    requires s.stage.NoStage? && NoMessages(s.cells, s.steps) && OwnLists(s.cells, s.steps)
    ensures (exists early, acts :: Arrivals(s, early) && Misled(p, s, early, acts))
            <==> s.expiring > 0 || !AllInert(s.cells, s.steps)
    ensures !AllInert(s.cells, s.steps) ==>
              exists acts :: Misled(p, s, [], acts) && !Run(p, Begin(s, []), acts).loop.Running?
  {
    hide Run, Inert, OwnLists, NoMessages;
    if !AllInert(s.cells, s.steps) {
      var b := Begin(s, []);
      assert b.queue == [NextStep];
      SomeScheduleMisleads(p, b);
      var acts :| Run(p, b, acts).loop.Crashed? && Run(p, b, acts).verdict.Passed?;
      assert Arrivals(s, []) && Misled(p, s, [], acts);
    } else if s.expiring > 0 {
      LateTimerMisleads(p, s);
    } else {
      forall early, acts | Arrivals(s, early)
        ensures !Misled(p, s, early, acts)
      {
        InertNeverMisleads(p, s, early, acts);
        RunTells(p, s, early, acts);
      }
    }
  }
}
