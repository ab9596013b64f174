// Every test ends once its surroundings fall silent: the stage timers carry it to the end.
module TestLiveness {
  import opened Text
  import opened EventLoop
  import Capture
  import opened TestModel
  import opened TestHistory
  import opened Barrier
  import opened TestInvariants
  import opened TestSafety
  import opened TestTheorems

  // User code that is called may answer anything or raise, but asks the engine for nothing.
  ghost predicate Passive(c: Choice) {
    forall i :: c.step(i).effects == [] && c.monitor(i).effects == []
  }

  // An act that changes something although no device sends anything: the loop takes a queue entry
  // and the user code called is passive, the armed timer runs out, an expired timer delivers its
  // request.
  ghost predicate Silent(s: State, a: Act) {
    match a
    case DeviceLine(_, _) => false
    case TimerExpires => s.timer.Armed?
    case TimeoutPosted => s.expiring > 0
    case Dispatch(c) => s.queue != [] && Passive(c)
  }

  // Until the loop ends, every act is a silent one.
  ghost predicate SilentSchedule(p: Program, s: State, acts: seq<Act>) {
    acts == [] ||
    (var before := acts[..|acts| - 1];
     SilentSchedule(p, s, before) && (Run(p, s, before).loop.Running? ==> Silent(Run(p, s, before), acts[|acts| - 1])))
  }

  function EntryWeight(e: Entry): nat {
    match e
    case NextStep => 2
    case Fail => 2
    case Event(_, _) => 1
    case Quit => 1
  }

  function Weight(q: seq<Entry>): nat {
    if q == [] then 0 else Weight(q[..|q| - 1]) + EntryWeight(q[|q| - 1])
  }

  function Fuel(p: Program, s: State): nat {
    8 * Potential(p, s) + Weight(s.queue) + 3 * s.expiring + (if s.timer.Armed? then 4 else 0)
  }

  lemma PostFuel(p: Program, s: State, e: Entry)
    ensures Fuel(p, Post(s, e)) == Fuel(p, s) + EntryWeight(e)
  {
    assert (s.queue + [e])[..|s.queue|] == s.queue;
  }

  lemma {:induction false} WeightOfRest(q: seq<Entry>)
    requires q != []
    ensures Weight(q) == EntryWeight(q[0]) + Weight(q[1..])
  {
    if |q| == 1 {
      assert q[..0] == [];
    } else {
      WeightOfRest(q[..|q| - 1]);
      assert q[1..][..|q| - 2] == q[..|q| - 1][1..];
    }
  }

  lemma {:induction false} NextStageFuel(p: Program, s: State)
    requires s.steps == []
    ensures s.stage.Done? ==> Fuel(p, NextStage(p, s)) == Fuel(p, s) + 1
    ensures !s.stage.Done? ==> Fuel(p, NextStage(p, s)) < Fuel(p, s)
    decreases 4 - Rank(s.stage)
  {
    if s.stage.Done? {
      PostFuel(p, s, Quit);
    } else {
      EnterEffect(p, s);
      var s1 := EnterNext(p, s);
      assert Fuel(p, s1) <= Fuel(p, s) - 4;
      var s2 := if s1.steps == [] then NextStage(p, s1) else s1;
      if s1.steps == [] {
        NextStageFuel(p, s1);
      }
      PostFuel(p, s2, NextStep);
    }
  }

  lemma SameFuel(p: Program, s: State, t: State)
    requires t.stage == s.stage && |t.steps| == |s.steps| && t.queue == s.queue
    requires t.expiring == s.expiring && t.timer == s.timer
    ensures Fuel(p, t) == Fuel(p, s)
  {}

  // ---------- each handler spends fuel ----------

  lemma RemoveFuel(p: Program, s: State, x: Step)
    requires x in s.steps && Active(s.stage)
    ensures Fuel(p, RemoveStep(p, s, x)) < Fuel(p, s)
  {
    var s1 := Note(s.(steps := Without(s.steps, x)), Removed(x));
    if s1.steps == [] {
      NextStageFuel(p, s1);
    } else {
      PostFuel(p, s1, NextStep);
    }
  }

  // A passive handler either ends the loop or leaves no more fuel than before.
  predicate Spends(p: Program, s: State, t: State) {
    t.loop.Running? ==> Fuel(p, t) <= Fuel(p, s)
  }

  lemma CrashEnds(p: Program, s: State)
    ensures Crash(p, s).loop.Crashed?
  {
    NextStageEffect(p, Note(s.(loop := Crashed), Raised).(verdict := Failed, steps := []));
  }

  lemma MessageFuel(p: Program, s: State, x: Step, d: Capture.MsgDescriptor, line: string, c: Choice, i: nat)
    requires x in s.steps && Active(s.stage) && Passive(c)
    ensures Spends(p, s, DoMessage(p, s, x, d, line, c, i))
  {
    hide RemoveStep, Crash, Potential, Weight;
    var cell := CellOf(s, x);
    var (memory, complete) := Capture.Feed(d, cell.storage, line);
    var s1 := SetCell(s, x, cell.(storage := memory));
    CrashEnds(p, s1);
    SameFuel(p, s, s1);
    RemoveFuel(p, s1, x);
    assert Call(s1, c.step(i).effects) == s1;
    if complete.Just? && !c.parserRaises {
      var s2 := ParserResult(p, s1, x, c.step(i));
      SameFuel(p, s2, SetCell(s2, x, cell.(storage := Capture.FRESH)));
    }
  }

  lemma PhrasesFuel(p: Program, s: State, x: Step, c: Choice, i: nat)
    requires x in s.steps && Active(s.stage) && Passive(c)
    requires CellOf(s, x).data.Phrases? && CellOf(s, x).data.texts != []
    ensures Spends(p, s, DoPhrases(p, s, x, c, i))
  {
    hide RemoveStep, Crash, Potential, Weight;
    var cell := CellOf(s, x);
    var shorter := SetCell(s, x, cell.(data := Phrases(cell.data.texts[1..])));
    SameFuel(p, s, shorter);
    RemoveFuel(p, s, x);
    RemoveFuel(p, shorter, x);
    CrashEnds(p, s);
    assert Call(s, c.step(i).effects) == s && Call(shorter, c.step(i).effects) == shorter;
  }

  lemma {:induction false} ScanFuel(p: Program, s: State, source: nat, line: string, c: Choice, i: nat)
    requires (s.steps != [] <==> Active(s.stage)) && i <= |s.steps| && Passive(c)
    ensures Spends(p, s, Scan(p, s, source, line, c, i))
    decreases |s.steps| - i
  {
    hide RemoveStep, Crash, DoMessage, DoPhrases, Potential, Weight, Contains;
    if i < |s.steps| && s.steps[i].action.WaitFor? {
      var x := s.steps[i];
      ScanFuel(p, s, source, line, c, i + 1);
      CrashEnds(p, s);
      RemoveFuel(p, s, x);
      assert Call(s, c.step(i).effects) == s;
      match CellOf(s, x).data {
        case Message(d) => MessageFuel(p, s, x, d, line, c, i);
        case Phrases(texts) =>
          if texts != [] {
            PhrasesFuel(p, s, x, c, i);
          }
        case _ =>
      }
    }
  }

  lemma {:induction false} MonitorsFuel(p: Program, s: State, source: nat, c: Choice, i: nat)
    requires i <= |s.monitors| && Passive(c)
    ensures RunMonitors(p, s, source, c, i) == s || RunMonitors(p, s, source, c, i).loop.Crashed?
    decreases |s.monitors| - i
  {
    hide Crash, Fuel;
    if i < |s.monitors| {
      CrashEnds(p, s);
      assert Call(s, c.monitor(i).effects) == s;
      MonitorsFuel(p, s, source, c, i + 1);
    }
  }

  lemma NextStepFuel(p: Program, s: State, c: Choice)
    requires (s.steps != [] <==> Active(s.stage)) && Passive(c)
    ensures var t := DoNextStep(p, s, c);
            t.loop.Running? ==> Fuel(p, t) <= Fuel(p, s) + 1
  {
    hide RemoveStep, Crash, NextStage, Potential, Weight;
    if s.steps == [] {
      NextStageFuel(p, s);
    } else if !s.steps[0].action.WaitFor? {
      var x := s.steps[0];
      var ran := Note(s, Ran(x));
      assert Call(ran, c.step(0).effects) == ran;
      CrashEnds(p, ran);
      CrashEnds(p, s);
      SameFuel(p, s, ran);
      RemoveFuel(p, ran, x);
      RemoveFuel(p, s, x);
    }
  }

  lemma HandleFuel(p: Program, s: State, c: Choice)
    requires Fits(s) && s.loop.Running? && s.queue != [] && Passive(c)
    ensures var t := Handle(p, Pop(s), s.queue[0], c);
            t.loop.Running? ==> Fuel(p, t) < Fuel(p, s)
  {
    hide Potential, Weight, DoNextStep, Scan, RunMonitors, NextStage;
    WeightOfRest(s.queue);
    var s1 := Pop(s);
    PopFuel(p, s);
    assert s1.steps == s.steps && s1.stage == s.stage;
    match s.queue[0] {
      case NextStep => NextStepFuel(p, s1, c);
      case Event(source, line) =>
        ScanFuel(p, s1, source, line, c, 0);
        var s2 := Scan(p, s1, source, line, c, 0);
        MonitorsFuel(p, s2, source, c, 0);
      case Fail => FailFuel(p, s1);
      case Quit =>
    }
  }

  lemma PopFuel(p: Program, s: State)
    requires s.queue != []
    ensures Fuel(p, Pop(s)) + EntryWeight(s.queue[0]) == Fuel(p, s)
  {
    WeightOfRest(s.queue);
  }

  lemma FailFuel(p: Program, s: State)
    ensures Fuel(p, DoFail(p, s)) <= Fuel(p, s) + 1
  {
    var f := s.(verdict := Failed, steps := []);
    assert Fuel(p, f) <= Fuel(p, s);
    NextStageFuel(p, f);
  }

  // Every silent act spends fuel.
  lemma SilentStep(p: Program, s: State, a: Act)
    requires Inv(p, s) && s.loop.Running? && Silent(s, a)
    ensures var t := Next(p, s, a);
            t.loop.Running? ==> Fuel(p, t) < Fuel(p, s)
  {
    hide Core, Reorders, Weight, Handle;
    if a.Dispatch? {
      HandleFuel(p, s, a.choice);
    } else if a.TimeoutPosted? {
      PostFuel(p, s.(expiring := s.expiring - 1), Fail);
      assert Fuel(p, s.(expiring := s.expiring - 1)) == Fuel(p, s) - 3;
    }
  }

  // In silence a running test is never stuck: the loop has an entry to take, or a timer is going.
  lemma SomethingIsLeft(p: Program, s: State, c: Choice)
    requires Inv(p, s) && s.loop.Running? && Passive(c)
    ensures Silent(s, Dispatch(c)) || Silent(s, TimeoutPosted) || Silent(s, TimerExpires)
  {
    hide Core, Reorders;
  }

  // ---------- runs ----------

  lemma RunLast(p: Program, s: State, acts: seq<Act>)
    requires acts != []
    ensures Run(p, s, acts) == Next(p, Run(p, s, acts[..|acts| - 1]), acts[|acts| - 1])
  {}

  lemma {:induction false} RunAppend(p: Program, s: State, a: seq<Act>, b: seq<Act>)
    ensures Run(p, s, a + b) == Run(p, Run(p, s, a), b)
    decreases |b|
  {
    hide Next;
    if b == [] {
      assert a + b == a;
    } else {
      RunAppend(p, s, a, b[..|b| - 1]);
      assert (a + b)[..|a + b| - 1] == a + b[..|b| - 1] && (a + b)[|a + b| - 1] == b[|b| - 1];
      hide Run;
      RunLast(p, s, a + b);
      RunLast(p, Run(p, s, a), b);
    }
  }

  lemma {:induction false} SilentFuel(p: Program, s: State, acts: seq<Act>)
    requires Inv(p, s) && SilentSchedule(p, s, acts)
    ensures var t := Run(p, s, acts);
            Inv(p, t) && (t.loop.Running? ==> Fuel(p, t) + |acts| <= Fuel(p, s))
  {
    hide Inv, Next, Fuel, Silent;
    if acts != [] {
      var before, last := acts[..|acts| - 1], acts[|acts| - 1];
      SilentFuel(p, s, before);
      var t := Run(p, s, before);
      NextKeeps(p, t, last);
      NextRecords(p, t, last);
      if t.loop.Running? {
        SilentStep(p, t, last);
      }
    }
  }

  // Whatever happened so far: when devices and callbacks fall silent, the run ends within a number
  // of steps known in advance, however timers and dispatches interleave.
  lemma SilenceEndsTheRun(p: Program, s: State, early: seq<Entry>, acts: seq<Act>, more: seq<Act>)
    requires Startable(s) && OnlyEvents(early)
    requires var now := Run(p, Begin(s, early), acts);
             SilentSchedule(p, now, more) && |more| > Fuel(p, now)
    ensures !Run(p, Begin(s, early), acts + more).loop.Running?
  {
    hide Inv, Fuel, Silent;
    RunKeeps(p, s, early, acts);
    SilentFuel(p, Run(p, Begin(s, early), acts), more);
    RunAppend(p, Begin(s, early), acts, more);
  }

  // And such a schedule goes on for as long as the loop runs.
  lemma SilenceGoesOn(p: Program, s: State, early: seq<Entry>, acts: seq<Act>, more: seq<Act>, c: Choice)
    requires Startable(s) && OnlyEvents(early) && Passive(c)
    requires SilentSchedule(p, Run(p, Begin(s, early), acts), more)
    ensures exists a :: SilentSchedule(p, Run(p, Begin(s, early), acts), more + [a])
  {
    hide Inv, Silent;
    var now := Run(p, Begin(s, early), acts);
    RunKeeps(p, s, early, acts);
    SilentFuel(p, now, more);
    var t := Run(p, now, more);
    var a := if Silent(t, Dispatch(c)) then Dispatch(c) else if Silent(t, TimeoutPosted) then TimeoutPosted
             else TimerExpires;
    if t.loop.Running? {
      SomethingIsLeft(p, t, c);
    }
    assert (more + [a])[..|more|] == more;
    assert SilentSchedule(p, now, more + [a]);
  }

  // ---------- programs without WAIT_FOR steps ----------

  predicate AllActions(p: Program) {
    forall x | x in p.setup + p.test + p.teardown :: IsAction(x)
  }

  // User code that neither asks for anything nor raises.
  ghost predicate Harmless(c: Choice) {
    Passive(c) && forall i :: c.step(i).Returns?
  }

  // Nothing but tokens and the final quit entry is ever queued.
  predicate Undisturbed(s: State) {
    && s.expiring == 0 && !s.loop.Crashed? && !SawFailure(s.history)
    && forall e | e in s.queue :: e.NextStep? || e.Quit?
  }

  lemma HeadIsAction(p: Program, s: State)
    requires Inv(p, s) && AllActions(p) && Active(s.stage)
    ensures s.steps != [] && IsAction(s.steps[0])
  {
    PhaseFollowsList(p, s, s.stage);
    var a := RemovedIn(s.history, s.stage) + s.steps;
    assert s.steps[0] in multiset(a);
    assert s.steps[0] in multiset(Phase(p, s.stage));
  }

  lemma {:induction false} NextStageUndisturbed(p: Program, s: State)
    requires s.steps == [] && Undisturbed(s)
    ensures Undisturbed(NextStage(p, s))
    decreases 4 - Rank(s.stage)
  {
    if !s.stage.Done? {
      EnterEffect(p, s);
      if EnterNext(p, s).steps == [] {
        NextStageUndisturbed(p, EnterNext(p, s));
      }
    }
  }

  lemma RemoveUndisturbed(p: Program, s: State, x: Step)
    requires x in s.steps && Undisturbed(s)
    ensures Undisturbed(RemoveStep(p, s, x))
  {
    var s1 := Note(s.(steps := Without(s.steps, x)), Removed(x));
    if s1.steps == [] {
      NextStageUndisturbed(p, s1);
    }
  }

  lemma UndisturbedStep(p: Program, s: State, c: Choice)
    requires Inv(p, s) && Undisturbed(s) && s.loop.Running? && AllActions(p) && Harmless(c)
    ensures s.queue != [] && Undisturbed(Next(p, s, Dispatch(c)))
  {
    hide Core, Reorders, RemoveStep, NextStage;
    if Active(s.stage) {
      HeadIsAction(p, s);
    }
    var s1 := Pop(s);
    assert s.queue[0] in s.queue && forall e | e in s1.queue :: e in s.queue;
    if s.queue[0].NextStep? {
      if s1.steps == [] {
        NextStageUndisturbed(p, s1);
      } else {
        var x := s1.steps[0];
        var ran := Note(s1, Ran(x));
        assert Call(ran, c.step(0).effects) == ran;
        RemoveUndisturbed(p, s1, x);
        RemoveUndisturbed(p, ran, x);
      }
    }
  }

  // The loop takes entries and the user code called is harmless.
  ghost predicate OnlyDispatches(acts: seq<Act>) {
    forall a | a in acts :: a.Dispatch? && Harmless(a.choice)
  }

  lemma {:induction false} UndisturbedRun(p: Program, s: State, acts: seq<Act>)
    requires Inv(p, s) && Undisturbed(s) && AllActions(p) && OnlyDispatches(acts)
    ensures Undisturbed(Run(p, s, acts)) && SilentSchedule(p, s, acts)
  {
    hide Inv, Next, Undisturbed;
    if acts != [] {
      var before, last := acts[..|acts| - 1], acts[|acts| - 1];
      assert last in acts && OnlyDispatches(before);
      UndisturbedRun(p, s, before);
      SilentFuel(p, s, before);
      var t := Run(p, s, before);
      NextRecords(p, t, last);
      if t.loop.Running? {
        UndisturbedStep(p, t, last.choice);
      }
    }
  }

  // Without waits, user requests and exceptions every test passes, and has then run the action
  // steps of its three lists, in list order.
  lemma ActionOnlyTestsPass(p: Program, s: State, acts: seq<Act>)
    requires Startable(s) && AllActions(p) && OnlyDispatches(acts) && |acts| > Fuel(p, Begin(s, []))
    ensures var t := Run(p, Begin(s, []), acts);
            && t.loop.Quitted? && t.stage.Done? && t.verdict.Passed?
            && RanIn(t.history, Setup) == Runnable(p.setup)
            && RanIn(t.history, Testing) == Runnable(p.test)
            && RanIn(t.history, Teardown) == Runnable(p.teardown)
  {
    hide Inv, Fuel, Reorders;
    var b := Begin(s, []);
    BeginHolds(p, s, []);
    UndisturbedRun(p, b, acts);
    SilentFuel(p, b, acts);
    assert NobodyStops(acts);
    PassCertifiesAllPhases(p, s, [], acts);
    FailuresOnRecord(p, s, [], acts);
  }
}
