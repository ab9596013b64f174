// What one event does to the step list.
module TestEvents {
  import opened Text
  import Capture
  import opened TestModel
  import opened Barrier
  import opened TestInvariants

  function AllRemoved(h: History): seq<Step> {
    match h
    case Blank => []
    case Then(past, Removed(x)) => AllRemoved(past) + [x]
    case Then(past, _) => AllRemoved(past)
  }

  // Position i lies in the leading block of WAIT_FOR steps.
  predicate InBlock(s: State, i: nat) {
    i < |s.steps| && AllWaits(s.steps[..i + 1])
  }

  // The step at position i ends the scan: it is on the event's source, its expectation is met,
  // and, for a plain string, its callback does not decline. A message descriptor ends the scan
  // whatever the line is.
  predicate Takes(s: State, i: nat, source: nat, line: string, c: Choice)
    requires i < |s.steps|
  {
    var x := s.steps[i];
    x.source == source &&
    match CellOf(s, x).data
    case Phrase(text) => Contains(line, text) && (!x.hasCallback || c.step(i).Raises? || c.step(i).ok)
    case Message(d) => true
    case Phrases(texts) => texts == [] || Contains(line, texts[0])
    case NoData => true
  }

  // A step that ends the scan is also removed. A list of strings goes with its first match, even
  // when the callback declines and even when strings are left in it.
  predicate Removes(s: State, i: nat, line: string, c: Choice)
    requires i < |s.steps|
  {
    var x := s.steps[i];
    match CellOf(s, x).data
    case Phrase(text) => !(x.hasCallback && c.step(i).Raises?)
    case Message(d) =>
      && Capture.Feed(d, CellOf(s, x).storage, line).1.Just? && !c.parserRaises
      && (!x.hasCallback || (c.step(i).Returns? && c.step(i).ok))
    case Phrases(texts) => texts != [] && !(x.hasCallback && c.step(i).Raises?)
    case NoData => false
  }

  ghost predicate NobodyTakes(s: State, source: nat, line: string, c: Choice, from: nat, to: nat) {
    forall k | from <= k < to && InBlock(s, k) :: !Takes(s, k, source, line, c)
  }

  // An exception while a complete message is handled.
  predicate Interrupts(s: State, i: nat, line: string, c: Choice)
    requires i < |s.steps|
  {
    var x := s.steps[i];
    && CellOf(s, x).data.Message?
    && Capture.Feed(CellOf(s, x).data.descriptor, CellOf(s, x).storage, line).1.Just?
    && (c.parserRaises || (x.hasCallback && c.step(i).Raises?))
  }

  // Taking the event raises an exception.
  predicate RaisesAt(s: State, i: nat, line: string, c: Choice)
    requires i < |s.steps|
  {
    var x := s.steps[i];
    match CellOf(s, x).data
    case Phrase(text) => x.hasCallback && c.step(i).Raises?
    case Message(d) => Interrupts(s, i, line, c)
    case Phrases(texts) => texts == [] || (x.hasCallback && c.step(i).Raises?)
    case NoData => true
  }

  // A match that a list of strings accepts.
  predicate Accepts(s: State, i: nat, c: Choice)
    requires i < |s.steps|
  {
    var x := s.steps[i];
    && CellOf(s, x).data.Phrases? && CellOf(s, x).data.texts != []
    && (!x.hasCallback || (c.step(i).Returns? && c.step(i).ok))
  }

  // What taking the event does to the data and the capture storage of the step: an accepted match
  // drops the first string, and a capture goes one step on unless an exception interrupts it.
  function CellAfter(s: State, i: nat, line: string, c: Choice): Cell
    requires i < |s.steps|
  {
    var cell := CellOf(s, s.steps[i]);
    match cell.data
    case Phrases(texts) => if Accepts(s, i, c) then cell.(data := Phrases(texts[1..])) else cell
    case Message(d) =>
      cell.(storage := if Interrupts(s, i, line, c) then Capture.Feed(d, cell.storage, line).0
                       else Capture.Step(d, cell.storage, line).0)
    case _ => cell
  }

  function CellsAfter(s: State, i: nat, line: string, c: Choice): map<nat, Cell>
    requires i < |s.steps|
  {
    if s.steps[i].id in s.cells then s.cells[s.steps[i].id := CellAfter(s, i, line, c)] else s.cells
  }

  // The leftmost step from position i on that takes the event.
  function TakerFrom(s: State, source: nat, line: string, c: Choice, i: nat): (r: Option<nat>)
    requires i <= |s.steps|
    ensures r.Just? ==> i <= r.value < |s.steps| && Takes(s, r.value, source, line, c)
    ensures r.Just? && (i == 0 || InBlock(s, i - 1)) ==> InBlock(s, r.value)
    ensures NobodyTakes(s, source, line, c, i, if r.Just? then r.value else |s.steps|)
    decreases |s.steps| - i
  {
    if i == |s.steps| || !s.steps[i].action.WaitFor? then Nothing
    else if Takes(s, i, source, line, c) then Just(i)
    else TakerFrom(s, source, line, c, i + 1)
  }

  // Only the steps and their cells matter for who takes an event.
  lemma SameTakers(s: State, t: State, source: nat, line: string, c: Choice, from: nat, to: nat)
    requires t.steps == s.steps && t.cells == s.cells && NobodyTakes(s, source, line, c, from, to)
    ensures NobodyTakes(t, source, line, c, from, to)
  {
    forall k | from <= k < to && InBlock(t, k)
      ensures !Takes(t, k, source, line, c)
    {
      assert InBlock(s, k);
    }
  }

  lemma SameHandling(s: State, t: State, source: nat, line: string, c: Choice, i: nat)
    requires t.steps == s.steps && t.cells == s.cells && i < |s.steps|
    ensures Takes(t, i, source, line, c) == Takes(s, i, source, line, c)
    ensures Removes(t, i, line, c) == Removes(s, i, line, c) && RaisesAt(t, i, line, c) == RaisesAt(s, i, line, c)
    ensures CellsAfter(t, i, line, c) == CellsAfter(s, i, line, c)
  {}

  lemma {:induction false} NextStageRemoves(p: Program, s: State)
    requires s.steps == []
    ensures AllRemoved(NextStage(p, s).history) == AllRemoved(s.history)
    ensures NextStage(p, s).cells == s.cells
    decreases 4 - Rank(s.stage)
  {
    if !s.stage.Done? {
      EnterEffect(p, s);
      if EnterNext(p, s).steps == [] {
        NextStageRemoves(p, EnterNext(p, s));
      }
    }
  }

  lemma CrashRemoves(p: Program, s: State)
    ensures AllRemoved(Crash(p, s).history) == AllRemoved(s.history)
    ensures Crash(p, s).cells == s.cells && Crash(p, s).loop.Crashed?
  {
    var f := Note(s.(loop := Crashed), Raised).(verdict := Failed, steps := []);
    NextStageRemoves(p, f);
    NextStageEffect(p, f);
  }

  lemma RemoveRemoves(p: Program, s: State, x: Step)
    requires x in s.steps
    ensures AllRemoved(RemoveStep(p, s, x).history) == AllRemoved(s.history) + [x]
    ensures RemoveStep(p, s, x).cells == s.cells && RemoveStep(p, s, x).loop == s.loop
  {
    var s1 := Note(s.(steps := Without(s.steps, x)), Removed(x));
    if s1.steps == [] {
      NextStageRemoves(p, s1);
      NextStageEffect(p, s1);
    }
  }

  lemma MessageRemoves(p: Program, s: State, i: nat, d: Capture.MsgDescriptor, line: string, c: Choice)
    requires i < |s.steps| && CellOf(s, s.steps[i]).data == Message(d) && s.loop.Running?
    ensures var t := DoMessage(p, s, s.steps[i], d, line, c, i);
            && AllRemoved(t.history) == AllRemoved(s.history) + (if Removes(s, i, line, c) then [s.steps[i]] else [])
            && t.cells == CellsAfter(s, i, line, c) && t.loop == (if RaisesAt(s, i, line, c) then Crashed else Running)
  {
    hide RemoveStep, Crash;
    var x := s.steps[i];
    var cell := CellOf(s, x);
    var (memory, complete) := Capture.Feed(d, cell.storage, line);
    var s1 := SetCell(s, x, cell.(storage := memory));
    CrashRemoves(p, s1);
    var s2 := Call(s1, c.step(i).effects);
    CrashRemoves(p, s2);
    RemoveRemoves(p, s1, x);
    RemoveRemoves(p, s2, x);
  }

  lemma PhrasesRemove(p: Program, s: State, i: nat, c: Choice, line: string)
    requires i < |s.steps| && CellOf(s, s.steps[i]).data.Phrases? && CellOf(s, s.steps[i]).data.texts != []
    requires s.loop.Running?
    ensures var t := DoPhrases(p, s, s.steps[i], c, i);
            && AllRemoved(t.history) == AllRemoved(s.history) + (if Removes(s, i, line, c) then [s.steps[i]] else [])
            && t.cells == CellsAfter(s, i, line, c) && t.loop == (if RaisesAt(s, i, line, c) then Crashed else Running)
  {
    hide RemoveStep, Crash;
    var x := s.steps[i];
    var cell := CellOf(s, x);
    var r := c.step(i);
    var shorter := SetCell(s, x, cell.(data := Phrases(cell.data.texts[1..])));
    RemoveRemoves(p, shorter, x);
    RemoveRemoves(p, Call(s, r.effects), x);
    RemoveRemoves(p, Call(shorter, r.effects), x);
    CrashRemoves(p, Call(s, r.effects));
  }

  lemma {:induction false} ScanWithoutTaker(p: Program, s: State, source: nat, line: string, c: Choice, i: nat)
    requires i <= |s.steps| && (i == 0 || InBlock(s, i - 1)) && NobodyTakes(s, source, line, c, i, |s.steps|)
    ensures var t := Scan(p, s, source, line, c, i);
            t == s.(queue := t.queue, monitors := t.monitors)
    decreases |s.steps| - i
  {
    hide RemoveStep, Crash, DoMessage, DoPhrases, Contains;
    if i < |s.steps| && s.steps[i].action.WaitFor? {
      assert s.steps[..i + 1] == s.steps[..i] + [s.steps[i]];
      assert InBlock(s, i);
      ScanWithoutTaker(p, s, source, line, c, i + 1);
      SameTakers(s, Call(s, c.step(i).effects), source, line, c, i + 1, |s.steps|);
      ScanWithoutTaker(p, Call(s, c.step(i).effects), source, line, c, i + 1);
    }
  }

  lemma {:induction false} ScanWithTaker(p: Program, s: State, source: nat, line: string, c: Choice, i: nat, j: nat)
    requires i <= j && InBlock(s, j) && Takes(s, j, source, line, c) && NobodyTakes(s, source, line, c, i, j)
    requires s.loop.Running?
    ensures var t := Scan(p, s, source, line, c, i);
            && AllRemoved(t.history) == AllRemoved(s.history) + (if Removes(s, j, line, c) then [s.steps[j]] else [])
            && t.cells == CellsAfter(s, j, line, c) && t.loop == (if RaisesAt(s, j, line, c) then Crashed else Running)
    decreases j - i
  {
    hide RemoveStep, Crash, DoMessage, DoPhrases, Contains, Removes, RaisesAt, CellsAfter;
    assert s.steps[i] == s.steps[..j + 1][i];
    assert s.steps[..i + 1] == s.steps[..j + 1][..i + 1];
    var s1 := Call(s, c.step(i).effects);
    if i < j {
      assert InBlock(s, i);
      ScanWithTaker(p, s, source, line, c, i + 1, j);
      SameTakers(s, s1, source, line, c, i + 1, j);
      SameHandling(s, s1, source, line, c, j);
      ScanWithTaker(p, s1, source, line, c, i + 1, j);
    } else {
      TakerIsHandled(p, s, source, line, c, i);
    }
  }

  lemma TakerIsHandled(p: Program, s: State, source: nat, line: string, c: Choice, i: nat)
    requires i < |s.steps| && s.steps[i].action.WaitFor? && Takes(s, i, source, line, c) && s.loop.Running?
    ensures var t := Scan(p, s, source, line, c, i);
            && AllRemoved(t.history) == AllRemoved(s.history) + (if Removes(s, i, line, c) then [s.steps[i]] else [])
            && t.cells == CellsAfter(s, i, line, c) && t.loop == (if RaisesAt(s, i, line, c) then Crashed else Running)
  {
    hide RemoveStep, Crash, DoMessage, DoPhrases, Contains;
    var x := s.steps[i];
    var s1 := Call(s, c.step(i).effects);
    CrashRemoves(p, s);
    CrashRemoves(p, s1);
    RemoveRemoves(p, s, x);
    RemoveRemoves(p, s1, x);
    match CellOf(s, x).data {
      case Message(d) => MessageRemoves(p, s, i, d, line, c);
      case Phrases(texts) =>
        if texts != [] {
          PhrasesRemove(p, s, i, c, line);
        }
      case _ =>
    }
  }

  lemma {:induction false} MonitorsRemoveNothing(p: Program, s: State, source: nat, c: Choice, i: nat)
    requires i <= |s.monitors|
    ensures var t := RunMonitors(p, s, source, c, i);
            AllRemoved(t.history) == AllRemoved(s.history) && t.cells == s.cells
    decreases |s.monitors| - i
  {
    hide Crash;
    if i < |s.monitors| {
      var s1 := Call(s, c.monitor(i).effects);
      CrashRemoves(p, s1);
      MonitorsRemoveNothing(p, s, source, c, i + 1);
      if SameNames(s.monitors, s1.monitors) {
        MonitorsRemoveNothing(p, s1, source, c, i + 1);
      }
    }
  }

  // An event that no step of the leading WAIT_FOR block takes removes nothing and leaves the data
  // and the capture storage of all steps alone.
  lemma UntakenEvent(p: Program, s: State, source: nat, line: string, c: Choice)
    requires NobodyTakes(s, source, line, c, 0, |s.steps|)
    ensures var t := DoEvent(p, s, source, line, c);
            AllRemoved(t.history) == AllRemoved(s.history) && t.cells == s.cells
  {
    hide Scan, Crash, RunMonitors;
    ScanWithoutTaker(p, s, source, line, c, 0);
    var s1 := Scan(p, s, source, line, c, 0);
    MonitorsRemoveNothing(p, s1, source, c, 0);
  }

  // Otherwise the leftmost step that takes it is the only one that can be removed or changed: it
  // is removed exactly when Removes says so, and its cell becomes CellAfter.
  lemma TakenEvent(p: Program, s: State, source: nat, line: string, c: Choice, j: nat)
    requires s.loop.Running? && InBlock(s, j) && Takes(s, j, source, line, c)
    requires NobodyTakes(s, source, line, c, 0, j)
    ensures var t := DoEvent(p, s, source, line, c);
            && AllRemoved(t.history) == AllRemoved(s.history) + (if Removes(s, j, line, c) then [s.steps[j]] else [])
            && t.cells == CellsAfter(s, j, line, c)
  {
    hide Scan, Crash, RunMonitors, Takes, Removes;
    ScanWithTaker(p, s, source, line, c, 0, j);
    var s1 := Scan(p, s, source, line, c, 0);
    MonitorsRemoveNothing(p, s1, source, c, 0);
  }

  // ---------- exceptions ----------

  // Offering an event to the waiting steps raises exactly when the leftmost step that takes it
  // raises.
  lemma ScanRaisesIff(p: Program, s: State, source: nat, line: string, c: Choice)
    requires s.loop.Running?
    ensures Scan(p, s, source, line, c, 0).loop ==
            match TakerFrom(s, source, line, c, 0)
            case Nothing => Running
            case Just(j) => if RaisesAt(s, j, line, c) then Crashed else Running
  {
    hide Scan, Takes, RaisesAt;
    match TakerFrom(s, source, line, c, 0) {
      case Nothing => ScanWithoutTaker(p, s, source, line, c, 0);
      case Just(j) => ScanWithTaker(p, s, source, line, c, 0, j);
    }
  }

  lemma {:induction false} TakerIs(s: State, source: nat, line: string, c: Choice, i: nat, j: nat)
    requires i <= j && InBlock(s, j) && Takes(s, j, source, line, c) && NobodyTakes(s, source, line, c, i, j)
    ensures TakerFrom(s, source, line, c, i) == Just(j)
    decreases j - i
  {
    hide Takes;
    assert s.steps[i] == s.steps[..j + 1][i];
    assert s.steps[..i + 1] == s.steps[..j + 1][..i + 1];
    if i < j {
      assert InBlock(s, i);
      TakerIs(s, source, line, c, i + 1, j);
    }
  }

  // A list of strings that the scan reaches, with a callback that returns, ends the scan with an
  // exception if and only if the list is empty. Otherwise it takes the event and goes, or the
  // scan passes over it.
  lemma ListRaisesIffEmpty(p: Program, s: State, source: nat, line: string, c: Choice, j: nat)
    requires s.loop.Running? && InBlock(s, j) && s.steps[j].source == source && CellOf(s, s.steps[j]).data.Phrases?
    requires NobodyTakes(s, source, line, c, 0, j)
    requires s.steps[j].hasCallback ==> c.step(j).Returns?
    ensures var t, texts := Scan(p, s, source, line, c, 0), CellOf(s, s.steps[j]).data.texts;
            && (texts == [] <==> TakerFrom(s, source, line, c, 0) == Just(j) && t.loop.Crashed?)
            && (texts == [] ==> DoEvent(p, s, source, line, c).loop.Crashed?)
            && (texts != [] && Contains(line, texts[0]) ==>
                  t.loop.Running? && AllRemoved(t.history) == AllRemoved(s.history) + [s.steps[j]])
            && (texts != [] && !Contains(line, texts[0]) ==> NobodyTakes(s, source, line, c, 0, j + 1))
  {
    hide Scan, Contains;
    ScanRaisesIff(p, s, source, line, c);
    if Takes(s, j, source, line, c) {
      TakerIs(s, source, line, c, 0, j);
      ScanWithTaker(p, s, source, line, c, 0, j);
    }
  }

  // ---------- the monitor table ----------

  ghost predicate UniqueNames(ms: seq<Monitor>) {
    forall i, j | 0 <= i < j < |ms| :: ms[i].name != ms[j].name
  }

  // Adding a monitor leaves exactly it under its name and all others as they were.
  lemma AddedMonitor(ms: seq<Monitor>, m: Monitor)
    requires UniqueNames(ms)
    ensures var t := WithMonitor(ms, m);
            && UniqueNames(t)
            && (forall x :: x in t <==> x == m || (x in ms && x.name != m.name))
            && if exists x :: x in ms && x.name == m.name then SameNames(ms, t) else t == ms + [m]
  {
    var t := WithMonitor(ms, m);
    if HasMonitor(ms, m.name) {
      var k :| 0 <= k < |ms| && ms[k].name == m.name;
      assert t[k] == m;
      forall x | x in ms && x.name != m.name
        ensures x in t
      {
        var i :| 0 <= i < |ms| && ms[i] == x;
        assert t[i] == x;
      }
    }
  }

  // ... and the others stay in order.
  lemma {:induction false} RemovedKeepsOrder(a: seq<Monitor>, b: seq<Monitor>, name: string)
    ensures WithoutMonitor(a + b, name) == WithoutMonitor(a, name) + WithoutMonitor(b, name)
  {
    if a == [] {
      assert a + b == b;
    } else {
      RemovedKeepsOrder(a[1..], b, name);
      assert (a + b)[0] == a[0] && (a + b)[1..] == a[1..] + b;
      ConcatAssoc(if a[0].name == name then [] else [a[0]], WithoutMonitor(a[1..], name), WithoutMonitor(b, name));
    }
  }

  // Removing a name leaves exactly the other monitors.
  lemma {:induction false} RemovedMonitor(ms: seq<Monitor>, name: string)
    ensures forall x :: x in WithoutMonitor(ms, name) <==> x in ms && x.name != name
  {
    if ms != [] {
      RemovedMonitor(ms[1..], name);
    }
  }
}
