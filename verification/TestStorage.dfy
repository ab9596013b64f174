// The data and the capture storage of the steps over whole runs: they belong to the step objects,
// so they outlive the run.
module TestStorage {
  import opened Text
  import opened EventLoop
  import Capture
  import opened TestModel
  import opened TestHistory
  import opened TestInvariants
  import opened TestSafety
  import opened TestTheorems
  import opened TestEvents

  // The position of the step that takes the event dispatched by an act.
  function Taker(s: State, a: Act): (r: Option<nat>)
    ensures r.Just? ==> r.value < |s.steps| && InBlock(s, r.value)
    ensures r.Just? ==> s.loop.Running? && a.Dispatch? && s.queue != [] && s.queue[0].Event?
  {
    if s.loop.Running? && a.Dispatch? && s.queue != [] && s.queue[0].Event?
    then TakerFrom(s, s.queue[0].source, s.queue[0].line, a.choice, 0) else Nothing
  }

  // The act makes the list of strings with this id accept a match.
  predicate AcceptsFor(s: State, a: Act, id: nat) {
    Taker(s, a).Just? && s.steps[Taker(s, a).value].id == id && Accepts(s, Taker(s, a).value, a.choice)
  }

  // How many matches the list of strings with this id accepted.
  function Matches(p: Program, s: State, acts: seq<Act>, id: nat): nat {
    if acts == [] then 0
    else
      var before, last := acts[..|acts| - 1], acts[|acts| - 1];
      Matches(p, s, before, id) + (if AcceptsFor(Run(p, s, before), last, id) then 1 else 0)
  }

  // The lines given to a capture, and whether an exception came while its message was handled.
  datatype Feeding = Feeding(lines: seq<string>, interrupted: bool)

  predicate Feeds(s: State, a: Act, id: nat) {
    Taker(s, a).Just? && s.steps[Taker(s, a).value].id == id && CellOf(s, s.steps[Taker(s, a).value]).data.Message?
  }

  function FedNext(s: State, a: Act, id: nat, f: Feeding): Feeding {
    if Feeds(s, a, id)
    then Feeding(f.lines + [s.queue[0].line],
                 f.interrupted || Interrupts(s, Taker(s, a).value, s.queue[0].line, a.choice))
    else f
  }

  function Fed(p: Program, s: State, acts: seq<Act>, id: nat): Feeding {
    if acts == [] then Feeding([], false)
    else
      var before, last := acts[..|acts| - 1], acts[|acts| - 1];
      FedNext(Run(p, s, before), last, id, Fed(p, s, before, id))
  }

  // ---------- one step ----------

  lemma NextStepCells(p: Program, s: State, c: Choice)
    ensures DoNextStep(p, s, c).cells == s.cells
  {
    hide Crash, RemoveStep, NextStage;
    if s.steps == [] {
      NextStageRemoves(p, s);
    } else {
      var (t, raised) := RunAction(s, s.steps[0], c.step(0));
      CrashRemoves(p, t);
      if s.steps[0] in t.steps {
        RemoveRemoves(p, t, s.steps[0]);
      }
    }
  }

  // Only a dispatched event changes a cell, and only that of the step that takes it. An exception
  // of that step ends the loop.
  lemma NextCells(p: Program, s: State, a: Act)
    ensures var t := Next(p, s, a);
            match Taker(s, a)
            case Nothing => t.cells == s.cells
            case Just(j) =>
              && t.cells == CellsAfter(s, j, s.queue[0].line, a.choice)
              && (RaisesAt(s, j, s.queue[0].line, a.choice) ==> t.loop.Crashed?)
  {
    hide Takes, RaisesAt, CellsAfter, DoNextStep, DoEvent, NextStage;
    if s.loop.Running? && a.Dispatch? && s.queue != [] {
      var s1 := Pop(s);
      match s.queue[0] {
        case Event(source, line) => EventCells(p, s, s1, source, line, a.choice);
        case NextStep => NextStepCells(p, s1, a.choice);
        case Fail => NextStageRemoves(p, s1.(verdict := Failed, steps := []));
        case Quit =>
      }
    }
  }

  lemma EventCells(p: Program, s: State, t: State, source: nat, line: string, c: Choice)
    requires t.steps == s.steps && t.cells == s.cells && t.loop.Running?
    ensures var u := DoEvent(p, t, source, line, c);
            match TakerFrom(s, source, line, c, 0)
            case Nothing => u.cells == t.cells
            case Just(j) => u.cells == CellsAfter(s, j, line, c) && (RaisesAt(s, j, line, c) ==> u.loop.Crashed?)
  {
    hide Scan, RunMonitors, Takes, RaisesAt, CellsAfter, Removes;
    match TakerFrom(s, source, line, c, 0) {
      case Nothing =>
        SameTakers(s, t, source, line, c, 0, |s.steps|);
        UntakenEvent(p, t, source, line, c);
      case Just(j) =>
        SameTakers(s, t, source, line, c, 0, j);
        SameHandling(s, t, source, line, c, j);
        TakenEvent(p, t, source, line, c, j);
        ScanWithTaker(p, t, source, line, c, 0, j);
    }
  }

  // ---------- whole runs ----------

  // A list of strings loses exactly one string, the first, with each match it accepts.
  lemma {:induction false} ListAfterRun(p: Program, s: State, acts: seq<Act>, id: nat)
    requires id in s.cells && s.cells[id].data.Phrases?
    ensures var t, n := Run(p, s, acts), Matches(p, s, acts, id);
            && n <= |s.cells[id].data.texts| && id in t.cells
            && t.cells[id] == s.cells[id].(data := Phrases(s.cells[id].data.texts[n..]))
  {
    hide Next, Taker;
    var texts := s.cells[id].data.texts;
    if acts == [] {
      assert texts[0..] == texts;
    } else {
      var before, last := acts[..|acts| - 1], acts[|acts| - 1];
      ListAfterRun(p, s, before, id);
      NextCells(p, Run(p, s, before), last);
      var n := Matches(p, s, before, id);
      assert n < |texts| ==> texts[n..][1..] == texts[n + 1..];
    }
  }

  // An attempt leaves the list as it was if and only if no match of it was accepted.
  lemma ListUnchangedIff(p: Program, s: State, acts: seq<Act>, id: nat)
    requires id in s.cells && s.cells[id].data.Phrases?
    ensures id in Run(p, s, acts).cells
    ensures Run(p, s, acts).cells[id] == s.cells[id] <==> Matches(p, s, acts, id) == 0
  {
    ListAfterRun(p, s, acts, id);
    var texts, n := s.cells[id].data.texts, Matches(p, s, acts, id);
    assert |texts[n..]| == |texts| - n;
    assert n == 0 ==> texts[n..] == texts;
  }

  // After an exception the storage holds a complete message, otherwise what the automaton keeps
  // of the lines given to it.
  predicate Stores(s: State, id: nat, d: Capture.MsgDescriptor, f: Feeding) {
    && id in s.cells && s.cells[id].data == Message(d)
    && if f.interrupted then s.cells[id].storage.buffer.Just? && s.loop.Crashed?
       else s.cells[id].storage == Capture.Captured(d, Capture.FRESH, f.lines, 0).1
  }

  lemma NextStores(p: Program, s: State, a: Act, id: nat, d: Capture.MsgDescriptor, f: Feeding)
    requires Stores(s, id, d, f)
    ensures Stores(Next(p, s, a), id, d, FedNext(s, a, id, f))
  {
    hide Handle, Taker, Capture.Captured;
    NextCells(p, s, a);
    if Feeds(s, a, id) {
      Capture.CapturedAndOne(d, Capture.FRESH, f.lines, s.queue[0].line, 0);
    }
  }

  lemma {:induction false} CaptureAfterRun(p: Program, s: State, acts: seq<Act>, id: nat)
    requires id in s.cells && s.cells[id].data.Message? && s.cells[id].storage == Capture.FRESH
    ensures Stores(Run(p, s, acts), id, s.cells[id].data.descriptor, Fed(p, s, acts, id))
  {
    hide Next, FedNext;
    var d := s.cells[id].data.descriptor;
    if acts != [] {
      var before, last := acts[..|acts| - 1], acts[|acts| - 1];
      CaptureAfterRun(p, s, before, id);
      NextStores(p, Run(p, s, before), last, id, d, Fed(p, s, before, id));
    }
  }

  // Steps with other data keep their cell, and no cell comes or goes.
  lemma {:induction false} OthersAfterRun(p: Program, s: State, acts: seq<Act>)
    ensures var t := Run(p, s, acts);
            && t.cells.Keys == s.cells.Keys
            && forall id | id in s.cells && (s.cells[id].data.Phrase? || s.cells[id].data.NoData?) ::
                 t.cells[id] == s.cells[id]
  {
    hide Next, Taker;
    if acts != [] {
      OthersAfterRun(p, s, acts[..|acts| - 1]);
      NextCells(p, Run(p, s, acts[..|acts| - 1]), acts[|acts| - 1]);
    }
  }

  // The capture storage of every step is as new.
  predicate Unused(cells: map<nat, Cell>) {
    forall id | id in cells :: cells[id].storage == Capture.FRESH
  }

  // No list accepted a match, and no capture was left open or interrupted.
  predicate LeavesNoTrace(p: Program, s: State, acts: seq<Act>) {
    forall id | id in s.cells ::
      match s.cells[id].data
      case Phrases(_) => Matches(p, s, acts, id) == 0
      case Message(d) =>
        !Fed(p, s, acts, id).interrupted && Capture.Unfinished(d, Fed(p, s, acts, id).lines, 0).Nothing?
      case _ => true
  }

  // A run leaves the steps as it found them exactly when no list accepted a match and no capture
  // was left open or interrupted.
  lemma CellsKeptIff(p: Program, s: State, acts: seq<Act>)
    requires Unused(s.cells)
    ensures Run(p, s, acts).cells == s.cells <==> LeavesNoTrace(p, s, acts)
  {
    hide Run, Matches, Fed;
    var t := Run(p, s, acts);
    OthersAfterRun(p, s, acts);
    forall id | id in s.cells
      ensures id in t.cells
      ensures t.cells[id] == s.cells[id] <==>
                match s.cells[id].data
                case Phrases(_) => Matches(p, s, acts, id) == 0
                case Message(d) =>
                  !Fed(p, s, acts, id).interrupted && Capture.Unfinished(d, Fed(p, s, acts, id).lines, 0).Nothing?
                case _ => true
    {
      match s.cells[id].data {
        case Phrases(_) => ListUnchangedIff(p, s, acts, id);
        case Message(d) =>
          CaptureAfterRun(p, s, acts, id);
          Capture.CapturesMessages(d, Fed(p, s, acts, id).lines, 0);
        case _ =>
      }
    }
    assert (forall id | id in s.cells :: t.cells[id] == s.cells[id]) ==> t.cells == s.cells;
  }

  // ---------- programs without lists of strings and descriptors ----------

  // No step of the program waits for a list of strings or a message.
  predicate PlainWaits(p: Program, cells: map<nat, Cell>) {
    forall x | x in p.setup + p.test + p.teardown && x.action.WaitFor? ::
      Lookup(cells, x).data.Phrase? || Lookup(cells, x).data.NoData?
  }

  lemma StepsFromProgram(p: Program, s: State, x: Step)
    requires Inv(p, s) && x in s.steps
    ensures x in p.setup + p.test + p.teardown
  {
    hide Core;
    PhaseFollowsList(p, s, s.stage);
    assert x in multiset(RemovedIn(s.history, s.stage) + s.steps);
    assert x in multiset(Phase(p, s.stage));
  }

  // Such a program leaves all cells alone, in every run.
  lemma {:induction false} PlainWaitsKeepCells(p: Program, s: State, early: seq<Entry>, acts: seq<Act>)
    requires Startable(s) && OnlyEvents(early) && PlainWaits(p, s.cells)
    ensures Run(p, Begin(s, early), acts).cells == s.cells
  {
    hide Inv, Next, Taker;
    if acts != [] {
      var before, last := acts[..|acts| - 1], acts[|acts| - 1];
      PlainWaitsKeepCells(p, s, early, before);
      RunKeeps(p, s, early, before);
      var t := Run(p, Begin(s, early), before);
      NextCells(p, t, last);
      if Taker(t, last).Just? {
        var j := Taker(t, last).value;
        StepsFromProgram(p, t, t.steps[j]);
        assert t.steps[j] == t.steps[..j + 1][j];
      }
    }
  }
}
