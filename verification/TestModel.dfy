// The test-case engine as functions on a state value: what each callback of `Test` does, and
// what a whole run does under any schedule of device threads, timers and user callbacks.
module TestModel {
  import opened Text
  import opened EventLoop
  import Capture

  datatype Action = Write | WaitFor | Execute | NoAction

  // A Step object. The id is the object's identity: equal values are the same object. The
  // attributes that the engine changes (data, storage) are kept apart, in a Cell.
  datatype Step = Step(id: nat, action: Action, source: nat, hasCallback: bool)

  datatype StepData = NoData | Phrase(text: string) | Message(descriptor: Capture.MsgDescriptor)
                    | Phrases(texts: seq<string>)

  datatype Cell = Cell(data: StepData, storage: Capture.Memory)

  datatype Program = Program(setup: seq<Step>, test: seq<Step>, teardown: seq<Step>)

  datatype Stage = NoStage | Setup | Testing | Teardown | Done

  datatype Verdict = NotRun | Passed | Failed

  // No timer object; a running timer; a timer whose wait is over.
  datatype Timer = NoTimer | Armed | Fired

  // The dispatch loop: still going, ended by a quit entry, ended by an exception.
  datatype Loop = Running | Quitted | Crashed

  datatype Monitor = Monitor(name: string, source: nat)

  // What happened so far, oldest first.
  datatype Item = Popped(entry: Entry) | Raised | Entered(stage: Stage) | Ran(step: Step) | Removed(step: Step)
  datatype History = Blank | Then(past: History, item: Item)

  // `expiring` counts timers past their wait whose fail request has not reached the queue yet.
  datatype State = State(
    stage: Stage, verdict: Verdict, steps: seq<Step>, timer: Timer, expiring: nat,
    loop: Loop, queue: seq<Entry>, monitors: seq<Monitor>, cells: map<nat, Cell>, history: History)

  // What user code called by the engine can do to it, and how the call ends.
  datatype Effect = SetFail | Stop | UserEvent(source: nat, line: string)
                  | AddMonitor(monitor: Monitor) | RemoveMonitor(name: string)
  datatype Reaction = Returns(effects: seq<Effect>, ok: bool) | Raises(effects: seq<Effect>)

  // The behaviour of user code during one dispatch: the callback of the step at a position of
  // the step list, whether the message parser raises, and the callback of each monitor.
  datatype Choice = Choice(step: nat -> Reaction, parserRaises: bool, monitor: nat -> Reaction)

  // One thing that can happen next: a device thread delivers a line, the stage timer runs out,
  // an expired timer's fail request reaches the queue, the loop takes its next queue entry.
  datatype Act = DeviceLine(source: nat, line: string) | TimerExpires | TimeoutPosted | Dispatch(choice: Choice)

  function Rank(g: Stage): nat {
    match g case NoStage => 0 case Setup => 1 case Testing => 2 case Teardown => 3 case Done => 4
  }

  function Phase(p: Program, g: Stage): seq<Step> {
    match g
    case Setup => p.setup
    case Testing => p.test
    case Teardown => p.teardown
    case _ => []
  }

  function Note(s: State, item: Item): State {
    s.(history := Then(s.history, item))
  }

  function Post(s: State, e: Entry): State {
    s.(queue := s.queue + [e])
  }

  function Lookup(cells: map<nat, Cell>, x: Step): Cell {
    if x.id in cells then cells[x.id] else Cell(NoData, Capture.FRESH)
  }

  function CellOf(s: State, x: Step): Cell {
    Lookup(s.cells, x)
  }

  function SetCell(s: State, x: Step, c: Cell): State {
    s.(cells := s.cells[x.id := c])
  }

  // ---------- user callbacks ----------

  function WithoutMonitor(ms: seq<Monitor>, name: string): seq<Monitor> {
    if ms == [] then []
    else (if ms[0].name == name then [] else [ms[0]]) + WithoutMonitor(ms[1..], name)
  }

  predicate HasMonitor(ms: seq<Monitor>, name: string) {
    exists i | 0 <= i < |ms| :: ms[i].name == name
  }

  // Assigning to an existing key keeps its place in the table.
  function WithMonitor(ms: seq<Monitor>, m: Monitor): seq<Monitor> {
    if HasMonitor(ms, m.name)
    then seq(|ms|, i requires 0 <= i < |ms| => if ms[i].name == m.name then m else ms[i])
    else ms + [m]
  }

  function Perform(s: State, e: Effect): State {
    match e
    case SetFail => Post(s, Fail)
    case Stop => Post(s, Quit)
    case UserEvent(source, line) => Post(s, Event(source, line))
    case AddMonitor(m) => s.(monitors := WithMonitor(s.monitors, m))
    case RemoveMonitor(name) => s.(monitors := WithoutMonitor(s.monitors, name))
  }

  // The state after user code ran: only the queue and the monitor table can have changed.
  function Call(s: State, effects: seq<Effect>): (s': State)
    ensures s' == s.(queue := s'.queue, monitors := s'.monitors)
    decreases |effects|
  {
    if effects == [] then s else Call(Perform(s, effects[0]), effects[1..])
  }

  // ---------- stages ----------

  function SetStage(p: Program, s: State, g: Stage): State {
    Note(s.(stage := g,
            steps := if g in {Setup, Testing, Teardown} then Phase(p, g) else s.steps),
         Entered(g))
  }

  // The timer restart and the stage change of __next_stage.
  function EnterNext(p: Program, s: State): State
    requires !s.stage.Done?
  {
    var s := s.(timer := Armed);
    match s.stage
    case NoStage => SetStage(p, s, Setup).(verdict := Passed)
    case Setup => if s.verdict.Failed? then SetStage(p, s, Teardown) else SetStage(p, s, Testing)
    case Testing => SetStage(p, s, Teardown)
    case Teardown => SetStage(p, s, Done).(timer := NoTimer)
  }

  // __next_stage. The requires clause is the assertion the code makes before it moves on.
  function NextStage(p: Program, s: State): State
    requires s.stage.Done? || s.steps == []
    decreases 4 - Rank(s.stage)
  {
    if s.stage.Done? then Post(s, Quit)
    else
      var s1 := EnterNext(p, s);
      var s2 := if s1.steps == [] then NextStage(p, s1) else s1;
      Post(s2, NextStep)
  }

  // __fail
  function DoFail(p: Program, s: State): State {
    NextStage(p, s.(verdict := Failed, steps := []))
  }

  // An exception leaves the loop; run() then fails the test.
  function Crash(p: Program, s: State): State {
    DoFail(p, Note(s.(loop := Crashed), Raised))
  }

  // ---------- steps ----------

  function IndexOf(steps: seq<Step>, x: Step): (i: nat)
    requires x in steps
    ensures i < |steps| && steps[i] == x && x !in steps[..i]
  {
    if steps[0] == x then 0 else 1 + IndexOf(steps[1..], x)
  }

  // list.remove
  function Without(steps: seq<Step>, x: Step): seq<Step>
    requires x in steps
  {
    var i := IndexOf(steps, x);
    steps[..i] + steps[i + 1..]
  }

  function RemoveStep(p: Program, s: State, x: Step): State
    requires x in s.steps
  {
    var s1 := Note(s.(steps := Without(s.steps, x)), Removed(x));
    if s1.steps == [] then NextStage(p, s1) else Post(s1, NextStep)
  }

  // The write or the callback of an action step; r is what the called code does.
  function RunAction(s: State, x: Step, r: Reaction): (State, bool) {
    match x.action
    case Write => (Note(s, Ran(x)), r.Raises?)
    case Execute => if x.hasCallback then (Call(Note(s, Ran(x)), r.effects), r.Raises?) else (s, false)
    case _ => (s, false)
  }

  function DoNextStep(p: Program, s: State, c: Choice): State {
    if s.steps == [] then NextStage(p, s)
    else if s.steps[0].action.WaitFor? then s
    else
      var (s1, raised) := RunAction(s, s.steps[0], c.step(0));
      if raised then Crash(p, s1) else RemoveStep(p, s1, s.steps[0])
  }

  // __process_parser_results
  function ParserResult(p: Program, s: State, x: Step, r: Reaction): State
    requires x in s.steps
  {
    if !x.hasCallback then RemoveStep(p, s, x)
    else
      var s1 := Call(s, r.effects);
      if r.Raises? then Crash(p, s1)
      else if r.ok then RemoveStep(p, s1, x) else s1
  }

  // The branch for a message descriptor: the line goes to the step's capture storage; once the
  // message is complete the parser and the callback run, and then the storage is reset. An
  // exception in either of them skips the reset.
  function DoMessage(p: Program, s: State, x: Step, d: Capture.MsgDescriptor, line: string, c: Choice, i: nat): State
    requires x in s.steps
  {
    var cell := CellOf(s, x);
    var (memory, complete) := Capture.Feed(d, cell.storage, line);
    var s1 := SetCell(s, x, cell.(storage := memory));
    if complete.Nothing? then s1
    else if c.parserRaises then Crash(p, s1)
    else
      var s2 := ParserResult(p, s1, x, c.step(i));
      if s2.loop.Crashed? then s2 else SetCell(s2, x, cell.(storage := Capture.FRESH))
  }

  // The branch for a list of strings, once its first string was found in the line.
  function DoPhrases(p: Program, s: State, x: Step, c: Choice, i: nat): State
    requires x in s.steps
    requires CellOf(s, x).data.Phrases? && CellOf(s, x).data.texts != []
  {
    var cell := CellOf(s, x);
    var shorter := SetCell(s, x, cell.(data := Phrases(cell.data.texts[1..])));
    if !x.hasCallback then RemoveStep(p, shorter, x)
    else
      var r := c.step(i);
      if r.Raises? then Crash(p, Call(s, r.effects))
      else RemoveStep(p, Call(if r.ok then shorter else s, r.effects), x)
  }

  // The scan of the leading WAIT_FOR steps, from position i on.
  function Scan(p: Program, s: State, source: nat, line: string, c: Choice, i: nat): State
    requires i <= |s.steps|
    decreases |s.steps| - i
  {
    if i == |s.steps| || !s.steps[i].action.WaitFor? then s
    else
      var x := s.steps[i];
      if x.source != source then Scan(p, s, source, line, c, i + 1)
      else
        match CellOf(s, x).data
        case Phrase(text) =>
          if !Contains(line, text) then Scan(p, s, source, line, c, i + 1)
          else if !x.hasCallback then RemoveStep(p, s, x)
          else
            var s1 := Call(s, c.step(i).effects);
            if c.step(i).Raises? then Crash(p, s1)
            else if c.step(i).ok then RemoveStep(p, s1, x)
            else Scan(p, s1, source, line, c, i + 1)
        case Message(d) => DoMessage(p, s, x, d, line, c, i)
        case Phrases(texts) =>
          if texts == [] then Crash(p, s)
          else if Contains(line, texts[0]) then DoPhrases(p, s, x, c, i)
          else Scan(p, s, source, line, c, i + 1)
        case NoData => Crash(p, s)
  }

  // Same names in the same order.
  predicate SameNames(a: seq<Monitor>, b: seq<Monitor>) {
    |a| == |b| && forall i | 0 <= i < |a| :: a[i].name == b[i].name
  }

  // The monitors of the event's source, in table order. The table is read while the callbacks
  // run: a monitor replaced by an earlier one is called in its new form, and adding or removing
  // a name raises.
  function RunMonitors(p: Program, s: State, source: nat, c: Choice, i: nat): State
    requires i <= |s.monitors|
    decreases |s.monitors| - i
  {
    if i == |s.monitors| then s
    else if s.monitors[i].source != source then RunMonitors(p, s, source, c, i + 1)
    else
      var s1 := Call(s, c.monitor(i).effects);
      if c.monitor(i).Raises? || !SameNames(s.monitors, s1.monitors) then Crash(p, s1)
      else RunMonitors(p, s1, source, c, i + 1)
  }

  // __process_event
  function DoEvent(p: Program, s: State, source: nat, line: string, c: Choice): State {
    var s1 := Scan(p, s, source, line, c, 0);
    if s1.loop.Crashed? then s1 else RunMonitors(p, s1, source, c, 0)
  }

  // ---------- runs ----------

  function Handle(p: Program, s: State, e: Entry, c: Choice): State {
    match e
    case NextStep => DoNextStep(p, s, c)
    case Event(source, line) => DoEvent(p, s, source, line, c)
    case Fail => DoFail(p, s)
    case Quit => s.(loop := Quitted, queue := [])
  }

  function Pop(s: State): State
    requires s.queue != []
  {
    Note(s.(queue := s.queue[1..]), Popped(s.queue[0]))
  }

  // Nothing happens any more once the loop has ended, and a dispatch on an empty queue is the
  // polling timeout of the loop.
  function Next(p: Program, s: State, a: Act): State {
    if !s.loop.Running? then s
    else
      match a
      case DeviceLine(source, line) => Post(s, Event(source, line))
      case TimerExpires => if s.timer.Armed? then s.(timer := Fired, expiring := s.expiring + 1) else s
      case TimeoutPosted => if s.expiring > 0 then Post(s.(expiring := s.expiring - 1), Fail) else s
      case Dispatch(c) => if s.queue == [] then s else Handle(p, Pop(s), s.queue[0], c)
  }

  function Run(p: Program, s: State, acts: seq<Act>): State {
    if acts == [] then s
    else Next(p, Run(p, s, acts[..|acts| - 1]), acts[|acts| - 1])
  }

  function Fails(q: seq<Entry>): nat {
    multiset(q)[Fail]
  }

  // run() at the point where the loop starts. Device threads are already reading, so lines may
  // be queued before the first token, and so may the requests of timers of an older run. Stage,
  // verdict, steps and cells are what the object had before; the timer is gone since the last
  // __cleanup.
  function Begin(s: State, early: seq<Entry>): State {
    State(s.stage, s.verdict, s.steps, NoTimer, if Fails(early) <= s.expiring then s.expiring - Fails(early) else 0,
          Running, early + [NextStep], [], s.cells, Blank)
  }

  // __cleanup. The steps, the stage and the cells stay as the run left them.
  function Cleanup(s: State): State {
    s.(timer := NoTimer, monitors := [])
  }

  predicate OnlyEvents(q: seq<Entry>) {
    forall e | e in q :: e.Event?
  }

  // What can be queued before the first token.
  predicate Arrivals(s: State, early: seq<Entry>) {
    (forall e | e in early :: e.Event? || e.Fail?) && Fails(early) <= s.expiring
  }

  // What a run relies on: a fresh stage, no step left over, no timer of an older run about to fire.
  predicate Startable(s: State) {
    s.stage.NoStage? && s.steps == [] && s.expiring == 0
  }
}
