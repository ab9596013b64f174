// The Test object: its methods update its fields in place, and each is proved to do what the
// function of TestModel with the same task says.
module TestCases {
  import opened Text
  import opened EventLoop
  import Capture
  import Model = TestModel
  import TestInvariants
  import TestRepeats
  import opened TestModel

  class TestCase {
    // The name of the test comes first.
    const tags: seq<string>
    const program: Program
    var stage: Stage
    var verdict: Verdict
    var steps: seq<Step>
    var timer: Timer
    var expiring: nat
    var mainloop: Mainloop
    var monitors: seq<Monitor>
    var cells: map<nat, Cell>
    // An exception is on its way out of the loop.
    var raised: bool
    ghost var history: History

    ghost function View(): (s: State)
      reads this, mainloop
    {
      State(stage, verdict, steps, timer, expiring,
            if raised then Crashed else if mainloop.active then Running else Quitted,
            mainloop.events, monitors, cells, history)
    }

    // What is left of a handler once the except clause of Run has dealt with its exception.
    ghost function Settled(): (s: State)
      reads this, mainloop
    {
      if raised then Model.DoFail(program, Note(View(), Raised)) else View()
    }

    constructor (name: string, tags: seq<string>, program: Program, cells: map<nat, Cell>)
      ensures this.tags == [name] + tags && this.program == program && this.cells == cells && !raised && fresh(mainloop)
      ensures stage == NoStage && verdict == NotRun && steps == [] && timer == NoTimer && expiring == 0
    {
      this.tags := [name] + tags;
      this.program := program;
      stage := NoStage;
      verdict := NotRun;
      steps := [];
      timer := NoTimer;
      expiring := 0;
      mainloop := new Mainloop();
      monitors := [];
      this.cells := cells;
      raised := false;
      history := Blank;
    }

    // ---------- requests from user code and device threads ----------

    method SetFail()
      modifies mainloop
      ensures View() == Post(old(View()), Fail)
    {
      mainloop.Add(Fail);
    }

    method Stop()
      modifies mainloop
      ensures View() == Post(old(View()), Quit)
    {
      mainloop.Add(Quit);
    }

    method OutputDataHandler(source: nat, line: string)
      modifies mainloop
      ensures View() == Post(old(View()), Event(source, line))
    {
      mainloop.Add(Event(source, line));
    }

    // The function an expired timer calls.
    method StageTimeout()
      requires expiring > 0
      modifies this`expiring, mainloop
      ensures View() == Post(old(View()).(expiring := old(expiring) - 1), Fail)
    {
      expiring := expiring - 1;
      SetFail();
    }

    method AddMonitor(m: Monitor)
      modifies this
      ensures View() == Perform(old(View()), Effect.AddMonitor(m)) && mainloop == old(mainloop)
      ensures raised == old(raised)
    {
      monitors := WithMonitor(monitors, m);
    }

    method RemoveMonitor(name: string)
      modifies this
      ensures View() == Perform(old(View()), Effect.RemoveMonitor(name)) && mainloop == old(mainloop)
      ensures raised == old(raised)
    {
      monitors := WithoutMonitor(monitors, name);
    }

    // A call into user code that makes these requests in this order.
    method CallUser(effects: seq<Effect>)
      modifies this, mainloop
      ensures View() == Call(old(View()), effects) && mainloop == old(mainloop)
      ensures raised == old(raised)
    {
      var i := 0;
      while i < |effects|
        invariant 0 <= i <= |effects| && mainloop == old(mainloop) && raised == old(raised)
        invariant Call(View(), effects[i..]) == Call(old(View()), effects)
      {
        ghost var before := View();
        match effects[i] {
          case SetFail => SetFail();
          case Stop => Stop();
          case UserEvent(source, line) => OutputDataHandler(source, line);
          case AddMonitor(m) => AddMonitor(m);
          case RemoveMonitor(name) => RemoveMonitor(name);
        }
        assert View() == Perform(before, effects[i]);
        assert effects[i..][1..] == effects[i + 1..];
        i := i + 1;
      }
    }

    // ---------- stages ----------

    method SetStage(g: Stage)
      modifies this
      ensures View() == Model.SetStage(program, old(View()), g) && mainloop == old(mainloop)
      ensures raised == old(raised)
    {
      stage := g;
      if stage == Setup {
        steps := program.setup;
      } else if stage == Testing {
        steps := program.test;
      } else if stage == Teardown {
        steps := program.teardown;
      }
      history := Then(history, Entered(g));
    }

    // The timer restart and the state change of NextStage.
    method EnterNextStage()
      requires stage != Done
      modifies this
      ensures View() == Model.EnterNext(program, old(View())) && mainloop == old(mainloop)
      ensures raised == old(raised)
    {
      timer := Armed;
      if stage == NoStage {
        SetStage(Setup);
        verdict := Passed;
      } else if stage == Setup {
        if verdict == Failed {
          SetStage(Teardown);
        } else {
          SetStage(Testing);
        }
      } else if stage == Testing {
        SetStage(Teardown);
      } else {
        SetStage(Done);
        timer := NoTimer;
      }
    }

    // The requires clause is the assertion that __next_stage makes.
    method NextStage()
      requires stage == Done || steps == []
      modifies this, mainloop
      ensures View() == Model.NextStage(program, old(View())) && mainloop == old(mainloop)
      ensures raised == old(raised)
      decreases 4 - Rank(stage)
    {
      ghost var s := View();
      if stage == Done {
        mainloop.Add(Quit);
        return;
      }
      TestInvariants.EnterEffect(program, s);
      EnterNextStage();
      if |steps| == 0 {
        NextStage();
      }
      mainloop.Add(NextStep);
    }

    method DoFail()
      modifies this, mainloop
      ensures View() == Model.DoFail(program, old(View())) && mainloop == old(mainloop)
      ensures raised == old(raised)
    {
      verdict := Failed;
      steps := [];
      NextStage();
    }

    // ---------- steps ----------

    method RemoveStep(x: Step)
      requires x in steps
      modifies this, mainloop
      ensures View() == Model.RemoveStep(program, old(View()), x) && mainloop == old(mainloop)
      ensures raised == old(raised)
    {
      steps := Without(steps, x);
      history := Then(history, Removed(x));
      if |steps| == 0 {
        NextStage();
      } else {
        mainloop.Add(NextStep);
      }
    }

    method DoNextStep(c: Choice)
      requires !raised
      modifies this, mainloop
      ensures Settled() == Model.DoNextStep(program, old(View()), c) && mainloop == old(mainloop)
    {
      if |steps| == 0 {
        NextStage();
        return;
      }
      var step := steps[0];
      if step.action != WaitFor {
        if step.action == Write {
          history := Then(history, Ran(step));
          raised := c.step(0).Raises?;
        } else if step.action == Execute && step.hasCallback {
          history := Then(history, Ran(step));
          CallUser(c.step(0).effects);
          raised := c.step(0).Raises?;
        }
        if raised {
          return;
        }
        RemoveStep(step);
      }
    }

    method ProcessParserResults(x: Step, r: Reaction)
      requires x in steps && !raised
      modifies this, mainloop
      ensures Settled() == Model.ParserResult(program, old(View()), x, r) && mainloop == old(mainloop)
    {
      if x.hasCallback {
        CallUser(r.effects);
        raised := r.Raises?;
        if !raised && r.ok {
          RemoveStep(x);
        }
      } else {
        RemoveStep(x);
      }
    }

    // ---------- events ----------

    // The branch for a message descriptor.
    method ProcessMessage(x: Step, d: Capture.MsgDescriptor, line: string, c: Choice, i: nat)
      requires x in steps && !raised
      modifies this, mainloop
      ensures Settled() == Model.DoMessage(program, old(View()), x, d, line, c, i) && mainloop == old(mainloop)
    {
      var cell := Lookup(cells, x);
      var (memory, complete) := Capture.Feed(d, cell.storage, line);
      cells := cells[x.id := cell.(storage := memory)];
      if complete.Nothing? {
        return;
      }
      if c.parserRaises {
        raised := true;
        return;
      }
      ProcessParserResults(x, c.step(i));
      CrashedByFail(program, Note(View(), Raised));
      if !raised {
        cells := cells[x.id := cell.(storage := Capture.FRESH)];
      }
    }

    // The branch for a list of strings whose first string is in the line.
    method ProcessPhrases(x: Step, c: Choice, i: nat)
      requires x in steps && !raised
      requires Lookup(cells, x).data.Phrases? && Lookup(cells, x).data.texts != []
      modifies this, mainloop
      ensures Settled() == Model.DoPhrases(program, old(View()), x, c, i) && mainloop == old(mainloop)
    {
      var cell := Lookup(cells, x);
      var shorter := cell.(data := Phrases(cell.data.texts[1..]));
      ghost var s := View();
      if x.hasCallback {
        CallUser(c.step(i).effects);
        if c.step(i).Raises? {
          raised := true;
          return;
        }
        if c.step(i).ok {
          cells := cells[x.id := shorter];
          CallAndCell(s, x, shorter, c.step(i).effects);
        }
      } else {
        cells := cells[x.id := shorter];
      }
      RemoveStep(x);
    }

    // The loop of __process_event over the nearest WAIT_FOR steps.
    method ScanWaits(source: nat, line: string, c: Choice)
      requires !raised
      modifies this, mainloop
      ensures Settled() == Model.Scan(program, old(View()), source, line, c, 0) && mainloop == old(mainloop)
    {
      var waiting := steps;
      var i := 0;
      while i < |waiting| && waiting[i].action == WaitFor
        invariant 0 <= i <= |waiting| && !raised && steps == waiting && mainloop == old(mainloop)
        invariant Model.Scan(program, View(), source, line, c, i)
               == Model.Scan(program, old(View()), source, line, c, 0)
        decreases |waiting| - i
      {
        var x := waiting[i];
        if x.source == source {
          match Lookup(cells, x).data {
            case Phrase(text) =>
              if Contains(line, text) {
                if x.hasCallback {
                  CallUser(c.step(i).effects);
                  if c.step(i).Raises? {
                    raised := true;
                    return;
                  }
                  if c.step(i).ok {
                    RemoveStep(x);
                    return;
                  }
                } else {
                  RemoveStep(x);
                  return;
                }
              }
            case Message(d) =>
              ProcessMessage(x, d, line, c, i);
              return;
            case Phrases(texts) =>
              if |texts| == 0 {
                raised := true;
                return;
              }
              if Contains(line, texts[0]) {
                ProcessPhrases(x, c, i);
                return;
              }
            case NoData =>
              raised := true;
              return;
          }
        }
        i := i + 1;
      }
    }

    method ProcessEvent(source: nat, line: string, c: Choice)
      requires !raised
      modifies this, mainloop
      ensures Settled() == Model.DoEvent(program, old(View()), source, line, c) && mainloop == old(mainloop)
    {
      hide Model.Scan, Model.Call;
      ScanWaits(source, line, c);
      CrashedByFail(program, Note(View(), Raised));
      if raised {
        return;
      }
      ghost var s := View();
      var i := 0;
      while i < |monitors|
        invariant 0 <= i <= |monitors| && !raised && mainloop == old(mainloop)
        invariant Model.RunMonitors(program, View(), source, c, i) == Model.RunMonitors(program, s, source, c, 0)
        decreases |monitors| - i
      {
        if monitors[i].source == source {
          var table := monitors;
          CallUser(c.monitor(i).effects);
          if c.monitor(i).Raises? || !SameNames(table, monitors) {
            raised := true;
            return;
          }
        }
        i := i + 1;
      }
    }

    // ---------- runs ----------

    // One turn of the dispatch loop.
    method Turn(c: Choice)
      requires !raised
      modifies this, mainloop
      ensures mainloop == old(mainloop)
      ensures Settled() == Model.Next(program, old(View()), Dispatch(c))
    {
      hide Model.DoNextStep, Model.DoEvent, Model.NextStage;
      if !mainloop.active {
        return;
      }
      ghost var s := View();
      var got, entry := mainloop.Get();
      if !got {
        return;
      }
      history := Then(history, Popped(entry));
      assert View() == Pop(s);
      match entry {
        case NextStep => DoNextStep(c);
        case Event(source, line) => ProcessEvent(source, line, c);
        case Fail => DoFail();
        case Quit => mainloop.DoQuit();
      }
    }

    // One thing that happens while the loop runs, with the except clause of run().
    method Happen(a: Act)
      modifies this, mainloop
      ensures View() == Model.Next(program, old(View()), a) && mainloop == old(mainloop)
    {
      if raised || !mainloop.active {
        return;
      }
      match a {
        case DeviceLine(source, line) => OutputDataHandler(source, line);
        case TimerExpires =>
          if timer == Armed {
            timer, expiring := Fired, expiring + 1;
          }
        case TimeoutPosted =>
          if expiring > 0 {
            StageTimeout();
          }
        case Dispatch(c) =>
          Turn(c);
          if raised {
            history := Then(history, Raised);
            DoFail();
          }
      }
    }

    // What device threads and late timers queue while run() prepares the loop.
    method Arrive(early: seq<Entry>)
      requires Arrivals(View(), early)
      modifies this`expiring, mainloop
      ensures var s := old(View());
              View() == s.(queue := s.queue + early, expiring := s.expiring - Fails(early))
    {
      hide Fails;
      ghost var s := View();
      var i := 0;
      FailsNone();
      assert s.queue + [] == s.queue;
      while i < |early|
        invariant 0 <= i <= |early|
        invariant Fails(early[..i]) + expiring == s.expiring
        invariant View() == s.(queue := s.queue + early[..i], expiring := expiring)
      {
        FailsNext(early, i);
        assert early[..i + 1] == early[..i] + [early[i]];
        ConcatAssoc(s.queue, early[..i], [early[i]]);
        if early[i] == Fail {
          StageTimeout();
        } else {
          OutputDataHandler(early[i].source, early[i].line);
        }
        i := i + 1;
      }
      assert early[..|early|] == early;
    }

    // run() up to the point where the loop starts.
    method Start(early: seq<Entry>)
      requires Arrivals(View(), early)
      modifies this
      ensures View() == Begin(old(View()), early) && fresh(mainloop) && !raised && mainloop.active
    {
      mainloop := new Mainloop();
      raised := false;
      timer := NoTimer;
      monitors := [];
      history := Blank;
      assert Arrivals(View(), early);
      Arrive(early);
      mainloop.Add(NextStep);
      mainloop.active := true;
    }

    // run() from the start of the output handlers on, for as long as these acts go.
    method RunLoop(early: seq<Entry>, acts: seq<Act>)
      requires Arrivals(View(), early)
      modifies this
      ensures View() == Model.Run(program, Begin(old(View()), early), acts) && fresh(mainloop)
    {
      ghost var start := Begin(View(), early);
      Start(early);
      hide Model.Next;
      var i := 0;
      while i < |acts|
        invariant 0 <= i <= |acts| && fresh(mainloop)
        invariant View() == Model.Run(program, start, acts[..i])
      {
        assert acts[..i + 1][..i] == acts[..i];
        Happen(acts[i]);
        i := i + 1;
      }
      assert acts[..|acts|] == acts;
    }

    // The same under acts that end the loop, with the cleanup.
    method Run(early: seq<Entry>, acts: seq<Act>)
      requires Arrivals(View(), early) && !Model.Run(program, Begin(View(), early), acts).loop.Running?
      modifies this
      ensures View() == Cleanup(Model.Run(program, Begin(old(View()), early), acts)) && fresh(mainloop)
    {
      hide Model.Run;
      RunLoop(early, acts);
      timer := NoTimer;
      monitors := [];
    }

    // run(), with its early returns.
    method Attempt(a: TestRepeats.Attempt)
      requires TestRepeats.Legal(program, View(), a)
      modifies this
      ensures View() == TestRepeats.RunAttempt(program, old(View()), a)
      ensures mainloop == old(mainloop) || fresh(mainloop)
    {
      match a {
        case Skipped =>
        case OpenFailed =>
          verdict := Failed;
          timer := NoTimer;
          monitors := [];
        case Ran(early, acts, lost) =>
          Run(early, acts);
          expiring := expiring - lost;
      }
    }

    // The repeat loop of the runner for one test; `attempts` says how its runs go.
    method RunRepeated(runCount: nat, attempts: seq<TestRepeats.Attempt>)
      requires |attempts| == runCount && TestRepeats.LegalFrom(program, View(), attempts, 0)
      modifies this
      ensures View() == TestRepeats.RunRepeated(program, old(View()), attempts, 0)
    {
      hide TestRepeats.RunAttempt, TestRepeats.Legal;
      var j := 0;
      while j < runCount
        invariant 0 <= j <= runCount
        invariant TestRepeats.LegalFrom(program, View(), attempts, j)
        invariant TestRepeats.RunRepeated(program, View(), attempts, j)
               == TestRepeats.RunRepeated(program, old(View()), attempts, 0)
      {
        if j > 0 {
          stage := NoStage;
        }
        Attempt(attempts[j]);
        if verdict != Failed {
          return;
        }
        j := j + 1;
      }
    }
  }

  lemma FailsNone()
    ensures Fails([]) == 0
  {}

  lemma FailsNext(q: seq<Entry>, i: nat)
    requires i < |q|
    ensures Fails(q[..i + 1]) == Fails(q[..i]) + (if q[i] == Fail then 1 else 0)
    ensures Fails(q[..i + 1]) <= Fails(q)
  {
    assert q == q[..i + 1] + q[i + 1..] && q[..i + 1] == q[..i] + [q[i]];
  }

  // __fail does not touch the loop.
  lemma CrashedByFail(p: Program, s: State)
    ensures Model.DoFail(p, s).loop == s.loop
  {
    TestInvariants.NextStageEffect(p, s.(verdict := Failed, steps := []));
  }

  // User code does not see the cells, so changing one before or after the call is the same.
  lemma {:induction false} CallAndCell(s: State, x: Step, c: Cell, effects: seq<Effect>)
    ensures Call(SetCell(s, x, c), effects) == SetCell(Call(s, effects), x, c)
    decreases |effects|
  {
    if effects != [] {
      CallAndCell(Perform(s, effects[0]), x, c, effects[1..]);
    }
  }
}
