// Who is called on an event, and what the calls put into the queue.
module TestRequests {
  import opened Text
  import opened EventLoop
  import Capture
  import opened TestModel
  import opened TestInvariants
  import opened TestSafety
  import opened TestTheorems
  import opened TestEvents
  import opened TestVerdict

  // ---------- one call of user code ----------

  // What a callback asks for, as queue entries: in the order asked, with the source and the line of
  // a user event.
  function Requests(effects: seq<Effect>): seq<Entry> {
    if effects == [] then [] else Request(effects[0]) + Requests(effects[1..])
  }

  function Request(e: Effect): seq<Entry> {
    match e
    case SetFail => [Fail]
    case Stop => [Quit]
    case UserEvent(source, line) => [Event(source, line)]
    case _ => []
  }

  lemma PerformQueues(s: State, e: Effect)
    ensures Perform(s, e).queue == s.queue + Request(e)
    ensures !e.AddMonitor? && !e.RemoveMonitor? ==> Perform(s, e).monitors == s.monitors
  {
    assert s.queue + [] == s.queue;
  }

  predicate NoTable(effects: seq<Effect>) {
    forall e | e in effects :: !e.AddMonitor? && !e.RemoveMonitor?
  }

  lemma {:induction false} CallQueues(s: State, effects: seq<Effect>)
    ensures Call(s, effects).queue == s.queue + Requests(effects)
    ensures NoTable(effects) ==> Call(s, effects).monitors == s.monitors
    decreases |effects|
  {
    hide Perform, Request;
    if effects == [] {
      assert s.queue + [] == s.queue;
    } else {
      PerformQueues(s, effects[0]);
      CallQueues(Perform(s, effects[0]), effects[1..]);
      ConcatAssoc(s.queue, Request(effects[0]), Requests(effects[1..]));
    }
  }

  // ---------- monitors ----------

  // The requests of the monitors of this source from position i on, in table order, up to the
  // first callback that raises.
  function MonitorRequests(ms: seq<Monitor>, source: nat, c: Choice, i: nat): seq<Entry>
    requires i <= |ms|
    decreases |ms| - i
  {
    if i == |ms| then []
    else if ms[i].source != source then MonitorRequests(ms, source, c, i + 1)
    else Requests(c.monitor(i).effects) + if c.monitor(i).Raises? then [] else MonitorRequests(ms, source, c, i + 1)
  }

  predicate MonitorRaises(ms: seq<Monitor>, source: nat, c: Choice, i: nat) {
    exists k | i <= k < |ms| :: ms[k].source == source && c.monitor(k).Raises?
  }

  // The monitors of this source leave the table alone.
  predicate TableKept(ms: seq<Monitor>, source: nat, c: Choice) {
    forall k | 0 <= k < |ms| :: ms[k].source == source ==> NoTable(c.monitor(k).effects)
  }

  // Exactly the monitors of the event's source are called: what they ask for is all that changes,
  // and the event raises if and only if one of them does.
  lemma {:induction false} MonitorsCalled(p: Program, s: State, source: nat, c: Choice, i: nat)
    requires i <= |s.monitors| && s.loop.Running? && TableKept(s.monitors, source, c)
    ensures var t, asked := RunMonitors(p, s, source, c, i), MonitorRequests(s.monitors, source, c, i);
            if MonitorRaises(s.monitors, source, c, i) then t.loop.Crashed? && Queued(s, t, asked)
            else t == s.(queue := s.queue + asked)
    decreases |s.monitors| - i
  {
    hide Crash, Requests;
    if i == |s.monitors| {
      assert s.queue + [] == s.queue;
    } else if s.monitors[i].source != source {
      MonitorsCalled(p, s, source, c, i + 1);
    } else {
      var s1 := Call(s, c.monitor(i).effects);
      CallQueues(s, c.monitor(i).effects);
      if c.monitor(i).Raises? {
        CrashQueues(p, s1);
        QueuedAfter(s, s1, Crash(p, s1), Requests(c.monitor(i).effects), []);
      } else {
        assert s1 == s.(queue := s.queue + Requests(c.monitor(i).effects));
        MonitorsCalled(p, s1, source, c, i + 1);
        var rest := MonitorRequests(s.monitors, source, c, i + 1);
        ConcatAssoc(s.queue, Requests(c.monitor(i).effects), rest);
        if MonitorRaises(s.monitors, source, c, i + 1) {
          QueuedAfter(s, s1, RunMonitors(p, s1, source, c, i + 1), Requests(c.monitor(i).effects), rest);
        }
      }
    }
  }

  // A callback that adds or removes a name raises, whatever it answers.
  lemma TableChangeRaises(p: Program, s: State, source: nat, c: Choice, i: nat)
    requires i < |s.monitors| && s.monitors[i].source == source
    requires |Call(s, c.monitor(i).effects).monitors| != |s.monitors|
    ensures RunMonitors(p, s, source, c, i).loop.Crashed?
  {
    hide Call, Crash;
    CrashQueues(p, Call(s, c.monitor(i).effects));
  }

  // A callback that replaces a monitor behind it: the new one is there when its turn comes.
  lemma ReplacedMonitorIsSeen(p: Program, s: State, source: nat, c: Choice, i: nat, m: Monitor, j: nat)
    requires i < j < |s.monitors| && s.monitors[i].source == source && UniqueNames(s.monitors)
    requires c.monitor(i).Returns? && c.monitor(i).effects == [AddMonitor(m)] && s.monitors[j].name == m.name
    ensures RunMonitors(p, s, source, c, i) == RunMonitors(p, s.(monitors := s.monitors[j := m]), source, c, i + 1)
  {
    hide Crash;
    assert HasMonitor(s.monitors, m.name);
    assert WithMonitor(s.monitors, m) == s.monitors[j := m];
    var s1 := Perform(s, AddMonitor(m));
    assert Call(s1, []) == s1 && c.monitor(i).effects[1..] == [];
    assert Call(s, c.monitor(i).effects) == s1;
    assert SameNames(s.monitors, s1.monitors);
  }

  // ---------- waiting steps ----------

  // The event makes the step at position i, once the scan gets there, call its callback.
  predicate CalledAt(s: State, i: nat, source: nat, line: string, c: Choice)
    requires i < |s.steps|
  {
    var x := s.steps[i];
    x.source == source && x.hasCallback &&
    match CellOf(s, x).data
    case Phrase(text) => Contains(line, text)
    case Message(d) => Capture.Feed(d, CellOf(s, x).storage, line).1.Just? && !c.parserRaises
    case Phrases(texts) => texts != [] && Contains(line, texts[0])
    case NoData => false
  }

  // The requests of the steps called, from position i on, up to the step that takes the event.
  function ScanRequests(s: State, source: nat, line: string, c: Choice, i: nat): seq<Entry>
    requires i <= |s.steps|
    decreases |s.steps| - i
  {
    if i == |s.steps| || !s.steps[i].action.WaitFor? then []
    else
      (if CalledAt(s, i, source, line, c) then Requests(c.step(i).effects) else [])
      + if Takes(s, i, source, line, c) then [] else ScanRequests(s, source, line, c, i + 1)
  }

  // These entries are queued, and behind them nothing but tokens and quit entries.
  predicate Queued(s: State, t: State, asked: seq<Entry>) {
    var front := s.queue + asked;
    front <= t.queue && forall e | e in t.queue[|front|..] :: e.NextStep? || e.Quit?
  }

  lemma QueuedAfter(s: State, t: State, u: State, first: seq<Entry>, second: seq<Entry>)
    requires t.queue == s.queue + first && Queued(t, u, second)
    ensures Queued(s, u, first + second)
  {
    ConcatAssoc(s.queue, first, second);
  }

  lemma {:induction false} NextStageQueues(p: Program, s: State)
    requires s.steps == []
    ensures Queued(s, NextStage(p, s), [])
    decreases 4 - Rank(s.stage)
  {
    if !s.stage.Done? {
      EnterEffect(p, s);
      if EnterNext(p, s).steps == [] {
        NextStageQueues(p, EnterNext(p, s));
      }
    }
  }

  lemma CrashQueues(p: Program, s: State)
    ensures Queued(s, Crash(p, s), []) && Crash(p, s).loop.Crashed?
  {
    NextStageQueues(p, Note(s.(loop := Crashed), Raised).(verdict := Failed, steps := []));
    CrashMoves(p, s);
  }

  lemma RemoveQueues(p: Program, s: State, x: Step)
    requires x in s.steps
    ensures Queued(s, RemoveStep(p, s, x), [])
  {
    var s1 := Note(s.(steps := Without(s.steps, x)), Removed(x));
    if s1.steps == [] {
      NextStageQueues(p, s1);
    }
  }

  // A call of user code, and what the engine makes of its answer.
  lemma CallThen(p: Program, s: State, x: Step, effects: seq<Effect>)
    requires x in s.steps
    ensures Queued(s, Call(s, effects), Requests(effects))
    ensures Queued(s, RemoveStep(p, Call(s, effects), x), Requests(effects))
    ensures Queued(s, Crash(p, Call(s, effects)), Requests(effects))
  {
    hide RemoveStep, Crash, Requests, Call;
    CallQueues(s, effects);
    var s1 := Call(s, effects);
    assert s1.steps == s.steps;
    RemoveQueues(p, s1, x);
    CrashQueues(p, s1);
    assert Requests(effects) + [] == Requests(effects);
    QueuedAfter(s, s1, RemoveStep(p, s1, x), Requests(effects), []);
    QueuedAfter(s, s1, Crash(p, s1), Requests(effects), []);
  }

  lemma MessageQueues(p: Program, s: State, i: nat, d: Capture.MsgDescriptor, source: nat, line: string, c: Choice)
    requires i < |s.steps| && s.steps[i].source == source && CellOf(s, s.steps[i]).data == Message(d)
    ensures Queued(s, DoMessage(p, s, s.steps[i], d, line, c, i),
                   if CalledAt(s, i, source, line, c) then Requests(c.step(i).effects) else [])
  {
    hide RemoveStep, Crash, Requests, Call;
    var x, cell := s.steps[i], CellOf(s, s.steps[i]);
    var s1 := SetCell(s, x, cell.(storage := Capture.Feed(d, cell.storage, line).0));
    CrashQueues(p, s1);
    RemoveQueues(p, s1, x);
    CallThen(p, s1, x, c.step(i).effects);
  }

  lemma PhrasesQueue(p: Program, s: State, x: Step, c: Choice, i: nat)
    requires x in s.steps && CellOf(s, x).data.Phrases? && CellOf(s, x).data.texts != []
    ensures Queued(s, DoPhrases(p, s, x, c, i), if x.hasCallback then Requests(c.step(i).effects) else [])
  {
    hide RemoveStep, Crash, Requests, Call;
    var cell := CellOf(s, x);
    var shorter := SetCell(s, x, cell.(data := Phrases(cell.data.texts[1..])));
    RemoveQueues(p, shorter, x);
    CallThen(p, s, x, c.step(i).effects);
    CallThen(p, shorter, x, c.step(i).effects);
  }

  lemma SameCalled(s: State, t: State, source: nat, line: string, c: Choice, i: nat)
    requires t.steps == s.steps && t.cells == s.cells && i < |s.steps|
    ensures CalledAt(t, i, source, line, c) == CalledAt(s, i, source, line, c)
  {}

  lemma {:induction false} SameRequests(s: State, t: State, source: nat, line: string, c: Choice, i: nat)
    requires t.steps == s.steps && t.cells == s.cells && i <= |s.steps|
    ensures ScanRequests(t, source, line, c, i) == ScanRequests(s, source, line, c, i)
    decreases |s.steps| - i
  {
    hide Requests, Takes, CalledAt;
    if i < |s.steps| {
      SameHandling(s, t, source, line, c, i);
      SameCalled(s, t, source, line, c, i);
      SameRequests(s, t, source, line, c, i + 1);
    }
  }

  // The steps of the leading block are called in order up to the one that takes the event, and
  // what they ask for is queued in that order.
  lemma {:induction false} ScanQueues(p: Program, s: State, source: nat, line: string, c: Choice, i: nat)
    requires i <= |s.steps|
    ensures Queued(s, Scan(p, s, source, line, c, i), ScanRequests(s, source, line, c, i))
    decreases |s.steps| - i
  {
    hide RemoveStep, Crash, DoMessage, DoPhrases, Contains, Requests, Queued, Call;
    if i < |s.steps| && s.steps[i].action.WaitFor? {
      StepQueues(p, s, source, line, c, i);
      if !Takes(s, i, source, line, c) {
        var asked := if CalledAt(s, i, source, line, c) then Requests(c.step(i).effects) else [];
        var s1 := if CalledAt(s, i, source, line, c) then Call(s, c.step(i).effects) else s;
        CallQueues(s, c.step(i).effects);
        assert s.queue + [] == s.queue;
        ScanQueues(p, s1, source, line, c, i + 1);
        SameRequests(s, s1, source, line, c, i + 1);
        QueuedAfter(s, s1, Scan(p, s1, source, line, c, i + 1), asked, ScanRequests(s, source, line, c, i + 1));
      }
    } else {
      NothingQueued(s);
    }
  }

  lemma NothingQueued(s: State)
    ensures Queued(s, s, [])
  {}

  // The step at position i takes the event, or passes it on.
  lemma StepQueues(p: Program, s: State, source: nat, line: string, c: Choice, i: nat)
    requires i < |s.steps| && s.steps[i].action.WaitFor?
    ensures var asked := if CalledAt(s, i, source, line, c) then Requests(c.step(i).effects) else [];
            if Takes(s, i, source, line, c) then Queued(s, Scan(p, s, source, line, c, i), asked + [])
            else
              var s1 := if CalledAt(s, i, source, line, c) then Call(s, c.step(i).effects) else s;
              Scan(p, s, source, line, c, i) == Scan(p, s1, source, line, c, i + 1)
  {
    hide RemoveStep, Crash, DoMessage, DoPhrases, Contains, Requests, Queued, Call;
    var x := s.steps[i];
    var asked := if CalledAt(s, i, source, line, c) then Requests(c.step(i).effects) else [];
    assert asked + [] == asked;
    RemoveQueues(p, s, x);
    CrashQueues(p, s);
    CallThen(p, s, x, c.step(i).effects);
    if x.source == source {
      match CellOf(s, x).data {
        case Message(d) => MessageQueues(p, s, i, d, source, line, c);
        case Phrases(texts) =>
          if texts != [] {
            PhrasesQueue(p, s, x, c, i);
          }
        case _ =>
      }
    }
  }

  // ---------- one dispatch ----------

  // Monitor callbacks leave the monitor table alone.
  ghost predicate TablesKept(c: Choice) {
    forall i :: NoTable(c.monitor(i).effects)
  }

  // What an event makes user code ask for: the steps first, then the monitors of its source.
  function EventRequests(p: Program, s: State, source: nat, line: string, c: Choice): seq<Entry> {
    var s1 := Scan(p, s, source, line, c, 0);
    ScanRequests(s, source, line, c, 0)
    + if s1.loop.Crashed? then [] else MonitorRequests(s1.monitors, source, c, 0)
  }

  // Unless a step raises, every event is then shown to the monitors of its source, whatever the
  // steps made of it: they are called in table order, and their requests are queued behind those
  // of the steps and behind the tokens.
  lemma EventCallsMonitors(p: Program, s: State, source: nat, line: string, c: Choice)
    requires s.loop.Running?
    requires var s1 := Scan(p, s, source, line, c, 0);
             s1.loop.Running? && TableKept(s1.monitors, source, c)
    ensures var s1, t := Scan(p, s, source, line, c, 0), DoEvent(p, s, source, line, c);
            && Queued(s, s1, ScanRequests(s, source, line, c, 0))
            && if MonitorRaises(s1.monitors, source, c, 0)
               then t.loop.Crashed? && Queued(s1, t, MonitorRequests(s1.monitors, source, c, 0))
               else t == s1.(queue := s1.queue + MonitorRequests(s1.monitors, source, c, 0))
  {
    hide Scan, RunMonitors, Queued, ScanRequests, MonitorRequests;
    ScanQueues(p, s, source, line, c, 0);
    MonitorsCalled(p, Scan(p, s, source, line, c, 0), source, c, 0);
  }

  // What a token makes user code ask for.
  function TokenRequests(s: State, c: Choice): seq<Entry> {
    if s.steps != [] && s.steps[0].action.Execute? && s.steps[0].hasCallback
    then Requests(c.step(0).effects) else []
  }

  lemma TokenQueues(p: Program, s: State, c: Choice)
    ensures Queued(s, DoNextStep(p, s, c), TokenRequests(s, c))
  {
    hide RemoveStep, Crash, NextStage, Requests, Call;
    NothingQueued(s);
    if s.steps == [] {
      NextStageQueues(p, s);
    } else {
      var x := s.steps[0];
      RemoveQueues(p, s, x);
      RemoveQueues(p, Note(s, Ran(x)), x);
      CrashQueues(p, Note(s, Ran(x)));
      CallThen(p, Note(s, Ran(x)), x, c.step(0).effects);
    }
  }

  // Two choices that agree on the steps and on the monitors of the event's source do the same.
  lemma EventReadsOnlyItsOwn(p: Program, s: State, source: nat, line: string, c: Choice, d: Choice)
    requires s.loop.Running? && c.parserRaises == d.parserRaises && forall k: nat :: c.step(k) == d.step(k)
    requires var ms := Scan(p, s, source, line, c, 0).monitors;
             && TableKept(ms, source, c)
             && forall k: nat | k < |ms| && ms[k].source == source :: c.monitor(k) == d.monitor(k)
    ensures DoEvent(p, s, source, line, c) == DoEvent(p, s, source, line, d)
  {
    hide Scan, RunMonitors;
    ScanReadsSteps(p, s, source, line, c, d, 0);
    ScanMoves(p, s, source, line, c, 0);
    var s1 := Scan(p, s, source, line, c, 0);
    if s1.loop.Running? {
      MonitorsReadTheirOwn(p, s1, source, c, d, 0);
    }
  }

  lemma {:induction false} ScanReadsSteps(p: Program, s: State, source: nat, line: string, c: Choice, d: Choice, i: nat)
    requires i <= |s.steps| && c.parserRaises == d.parserRaises && forall k: nat :: c.step(k) == d.step(k)
    ensures Scan(p, s, source, line, c, i) == Scan(p, s, source, line, d, i)
    decreases |s.steps| - i
  {
    hide RemoveStep, Crash, Contains, Call;
    if i < |s.steps| {
      ScanReadsSteps(p, s, source, line, c, d, i + 1);
      assert Call(s, c.step(i).effects).steps == s.steps;
      ScanReadsSteps(p, Call(s, c.step(i).effects), source, line, c, d, i + 1);
    }
  }

  lemma {:induction false} MonitorsReadTheirOwn(p: Program, s: State, source: nat, c: Choice, d: Choice, i: nat)
    requires i <= |s.monitors| && TableKept(s.monitors, source, c)
    requires forall k: nat | k < |s.monitors| && s.monitors[k].source == source :: c.monitor(k) == d.monitor(k)
    ensures RunMonitors(p, s, source, c, i) == RunMonitors(p, s, source, d, i)
    decreases |s.monitors| - i
  {
    hide Crash;
    if i < |s.monitors| {
      MonitorsReadTheirOwn(p, s, source, c, d, i + 1);
      if s.monitors[i].source == source {
        var s1 := Call(s, c.monitor(i).effects);
        CallQueues(s, c.monitor(i).effects);
        MonitorsReadTheirOwn(p, s1, source, c, d, i + 1);
      }
    }
  }

  // ---------- every event is offered once, in order ----------

  function EventsIn(q: seq<Entry>): seq<Entry> {
    if q == [] then [] else (if q[0].Event? then [q[0]] else []) + EventsIn(q[1..])
  }

  lemma {:induction false} EventsInBoth(a: seq<Entry>, b: seq<Entry>)
    ensures EventsIn(a + b) == EventsIn(a) + EventsIn(b)
  {
    if a == [] {
      assert a + b == b;
    } else {
      EventsInBoth(a[1..], b);
      assert (a + b)[0] == a[0] && (a + b)[1..] == a[1..] + b;
      ConcatAssoc(if a[0].Event? then [a[0]] else [], EventsIn(a[1..]), EventsIn(b));
    }
  }

  lemma {:induction false} NoEvents(q: seq<Entry>)
    requires forall e | e in q :: e.NextStep? || e.Quit?
    ensures EventsIn(q) == []
  {
    if q != [] {
      assert q[0] in q && forall e | e in q[1..] :: e in q;
      NoEvents(q[1..]);
    }
  }

  lemma QueuedEvents(s: State, t: State, asked: seq<Entry>)
    requires Queued(s, t, asked)
    ensures EventsIn(t.queue) == EventsIn(s.queue) + EventsIn(asked)
  {
    var front := s.queue + asked;
    assert t.queue == front + t.queue[|front|..];
    NoEvents(t.queue[|front|..]);
    EventsInBoth(front, t.queue[|front|..]);
    EventsInBoth(s.queue, asked);
    assert EventsIn(front) + [] == EventsIn(front);
  }

  lemma EventAsksEvents(p: Program, s: State, source: nat, line: string, c: Choice)
    requires s.loop.Running? && TablesKept(c)
    ensures EventsIn(DoEvent(p, s, source, line, c).queue)
         == EventsIn(s.queue) + EventsIn(EventRequests(p, s, source, line, c))
  {
    hide Scan, RunMonitors, Queued, EventsIn, ScanRequests, MonitorRequests;
    var s1 := Scan(p, s, source, line, c, 0);
    var first, second := ScanRequests(s, source, line, c, 0), MonitorRequests(s1.monitors, source, c, 0);
    ScanMoves(p, s, source, line, c, 0);
    ScanQueues(p, s, source, line, c, 0);
    QueuedEvents(s, s1, first);
    assert first + [] == first;
    if s1.loop.Running? {
      MonitorsCalled(p, s1, source, c, 0);
      var t := RunMonitors(p, s1, source, c, 0);
      if MonitorRaises(s1.monitors, source, c, 0) {
        QueuedEvents(s1, t, second);
      } else {
        EventsInBoth(s1.queue, second);
      }
      EventsInBoth(first, second);
      ConcatAssoc(EventsIn(s.queue), EventsIn(first), EventsIn(second));
    }
  }

  // The events an act brings: the line of a device, or the user events asked for in a dispatch.
  function Brought(p: Program, s: State, a: Act): seq<Entry> {
    if !s.loop.Running? then []
    else
      match a
      case DeviceLine(source, line) => [Event(source, line)]
      case Dispatch(c) =>
        if s.queue == [] then []
        else (match s.queue[0]
              case Event(source, line) => EventsIn(EventRequests(p, Pop(s), source, line, c))
              case NextStep => EventsIn(TokenRequests(Pop(s), c))
              case _ => [])
      case _ => []
  }

  function BroughtIn(p: Program, s: State, acts: seq<Act>): seq<Entry> {
    if acts == [] then []
    else BroughtIn(p, s, acts[..|acts| - 1]) + Brought(p, Run(p, s, acts[..|acts| - 1]), acts[|acts| - 1])
  }

  lemma NextEvents(p: Program, s: State, a: Act)
    requires s.loop.Running? && (a.Dispatch? ==> TablesKept(a.choice))
    ensures var t := Next(p, s, a);
            var taken := if a.Dispatch? && s.queue != [] then [s.queue[0]] else [];
            !t.loop.Quitted? ==>
              EventsIn(taken) + EventsIn(t.queue) == EventsIn(s.queue) + Brought(p, s, a)
  {
    hide DoEvent, DoNextStep, DoFail, Queued, EventRequests, TokenRequests;
    match a {
      case Dispatch(c) =>
        if s.queue != [] {
          DispatchEvents(p, s, c);
        } else {
          assert [] + EventsIn(s.queue) == EventsIn(s.queue) + [];
        }
      case DeviceLine(source, line) =>
        EventsInBoth(s.queue, [Event(source, line)]);
        OneEvent(Event(source, line));
      case TimeoutPosted =>
        EventsInBoth(s.queue, [Fail]);
        OneEvent(Fail);
      case TimerExpires =>
    }
  }

  lemma OneEvent(e: Entry)
    ensures EventsIn([e]) == if e.Event? then [e] else []
  {}

  lemma DispatchEvents(p: Program, s: State, c: Choice)
    requires s.loop.Running? && s.queue != [] && TablesKept(c)
    ensures var t := Next(p, s, Dispatch(c));
            !t.loop.Quitted? ==>
              EventsIn([s.queue[0]]) + EventsIn(t.queue) == EventsIn(s.queue) + Brought(p, s, Dispatch(c))
  {
    hide DoEvent, DoNextStep, EventRequests, TokenRequests, TablesKept, EventsIn, NextStage;
    var s1 := Pop(s);
    assert s.queue == [s.queue[0]] + s1.queue;
    EventsInBoth([s.queue[0]], s1.queue);
    match s.queue[0] {
      case Event(source, line) => EventAsksEvents(p, s1, source, line, c);
      case NextStep =>
        TokenQueues(p, s1, c);
        QueuedEvents(s1, DoNextStep(p, s1, c), TokenRequests(s1, c));
      case Fail =>
        var f := s1.(verdict := Failed, steps := []);
        NextStageQueues(p, f);
        QueuedEvents(f, NextStage(p, f), []);
        assert EventsIn([]) == [] by { NoEvents([]); }
      case Quit =>
    }
    ConcatAssoc(EventsIn([s.queue[0]]), EventsIn(s1.queue), Brought(p, s, Dispatch(c)));
  }

  // Conservation: as long as the loop has not quit, the events dispatched so far, followed by those
  // still queued, are those queued at first, the lines the devices delivered, and the events user
  // code asked for, each once and in order. A loop that quits drops what is queued.
  lemma {:induction false} EveryEventIsOffered(p: Program, s: State, acts: seq<Act>)
    requires s.loop.Running? && forall a | a in acts && a.Dispatch? :: TablesKept(a.choice)
    ensures var t, taken, all := Run(p, s, acts), Dispatched(p, s, acts), EventsIn(s.queue) + BroughtIn(p, s, acts);
            && EventsIn(taken) <= all
            && (!t.loop.Quitted? ==> EventsIn(taken) + EventsIn(t.queue) == all)
            && (t.loop.Quitted? ==> t.queue == [])
  {
    hide Next, Brought, EventsIn, TablesKept;
    if acts == [] {
      assert EventsIn([]) == [] by { NoEvents([]); }
    } else {
      var before, last := acts[..|acts| - 1], acts[|acts| - 1];
      assert last in acts && forall a | a in before :: a in acts;
      EveryEventIsOffered(p, s, before);
      OfferedNext(p, s, before, last);
    }
  }

  lemma OfferedNext(p: Program, s: State, before: seq<Act>, last: Act)
    requires last.Dispatch? ==> TablesKept(last.choice)
    requires var t, taken := Run(p, s, before), Dispatched(p, s, before);
             var all := EventsIn(s.queue) + BroughtIn(p, s, before);
             && EventsIn(taken) <= all
             && (!t.loop.Quitted? ==> EventsIn(taken) + EventsIn(t.queue) == all)
             && (t.loop.Quitted? ==> t.queue == [])
    ensures var acts := before + [last];
            var t, taken, all := Run(p, s, acts), Dispatched(p, s, acts), EventsIn(s.queue) + BroughtIn(p, s, acts);
            && EventsIn(taken) <= all
            && (!t.loop.Quitted? ==> EventsIn(taken) + EventsIn(t.queue) == all)
            && (t.loop.Quitted? ==> t.queue == [])
  {
    hide Next, Brought, EventsIn, TablesKept;
    var acts := before + [last];
    assert acts[..|acts| - 1] == before;
    var t, d := Run(p, s, before), Dispatched(p, s, before);
    var brought := Brought(p, t, last);
    ConcatAssoc(EventsIn(s.queue), BroughtIn(p, s, before), brought);
    if !t.loop.Running? {
      NothingMore(p, t, last);
      assert EventsIn(s.queue) + BroughtIn(p, s, before) + [] == EventsIn(s.queue) + BroughtIn(p, s, before);
    } else {
      var u := Next(p, t, last);
      var taken := if last.Dispatch? && t.queue != [] then [t.queue[0]] else [];
      assert Dispatched(p, s, acts) == d + taken;
      EventsInBoth(d, taken);
      NextEvents(p, t, last);
      ConcatAssoc(EventsIn(d), EventsIn(taken), EventsIn(u.queue));
      ConcatAssoc(EventsIn(d), EventsIn(t.queue), brought);
      if u.loop.Quitted? {
        QuitTakesNoEvent(p, t, last);
      }
    }
  }

  lemma NothingMore(p: Program, s: State, a: Act)
    requires !s.loop.Running?
    ensures Next(p, s, a) == s && Brought(p, s, a) == []
  {}

  lemma QuitTakesNoEvent(p: Program, s: State, a: Act)
    requires s.loop.Running? && Next(p, s, a).loop.Quitted?
    ensures a.Dispatch? && s.queue != [] && EventsIn([s.queue[0]]) == [] && Next(p, s, a).queue == []
  {
    hide DoFail, DoEvent, DoNextStep;
    NextTells(p, s, a);
    if a.Dispatch? && s.queue != [] {
      var s1 := Pop(s);
      match s.queue[0] {
        case NextStep => NextStepMoves(p, s1, a.choice);
        case Event(source, line) => EventMoves(p, s1, source, line, a.choice);
        case Fail => FailMoves(p, s.(queue := s.queue[1..]), Popped(Fail));
        case Quit =>
      }
    }
  }

  // Lines that arrive before the first token meet no step: as long as only they have been taken,
  // the test has not begun.
  lemma {:induction false} EarlyLinesMeetNoStep(p: Program, s: State, early: seq<Entry>, acts: seq<Act>)
    requires Startable(s) && OnlyEvents(early)
    requires |acts| <= |early| && forall a | a in acts :: a.Dispatch?
    ensures var t := Run(p, Begin(s, early), acts);
            && t.loop.Running? && t.stage.NoStage? && t.steps == [] && t.monitors == [] && t.cells == s.cells
            && t.queue == early[|acts|..] + [NextStep] && AllRemoved(t.history) == []
  {
    if acts == [] {
      assert early[0..] == early;
    } else {
      var before, last := acts[..|acts| - 1], acts[|acts| - 1];
      assert last in acts && forall a | a in before :: a in acts;
      EarlyLinesMeetNoStep(p, s, early, before);
      var t := Run(p, Begin(s, early), before);
      assert t.queue[0] == early[|before|] && early[|before|] in early;
      assert t.queue[1..] == early[|acts|..] + [NextStep];
    }
  }
}
