// Entries leave the queue in the order they came in, so a fail request cannot be overtaken.
module TestOrder {
  import opened Text
  import opened EventLoop
  import Capture
  import opened TestModel
  import opened TestHistory
  import opened TestInvariants
  import opened TestSafety
  import opened TestTheorems
  import opened TestEvents
  import opened TestVerdict
  import opened TestLiveness

  lemma NextInOrder(p: Program, s: State, a: Act)
    requires Inv(p, s)
    ensures var t := Next(p, s, a);
            && Rank(s.stage) <= Rank(t.stage)
            && (if s.loop.Running? && a.Dispatch? && s.queue != []
                then (t.loop.Quitted? <==> s.queue[0].Quit?) && (!t.loop.Quitted? ==> s.queue[1..] <= t.queue)
                else s.queue <= t.queue && t.loop == s.loop)
  {
    hide Inv, Handle;
    if s.loop.Running? && a.Dispatch? && s.queue != [] {
      DispatchKeeps(p, s, a.choice);
    }
  }

  // The stage never goes back.
  lemma {:induction false} StageNeverGoesBack(p: Program, s: State, more: seq<Act>)
    requires Inv(p, s)
    ensures Inv(p, Run(p, s, more)) && Rank(s.stage) <= Rank(Run(p, s, more).stage)
  {
    hide Inv, Next;
    if more != [] {
      StageNeverGoesBack(p, s, more[..|more| - 1]);
      var t := Run(p, s, more[..|more| - 1]);
      NextInOrder(p, t, more[|more| - 1]);
      NextKeeps(p, t, more[|more| - 1]);
    }
  }

  // What was queued and not yet taken is what comes next.
  predicate InOrder(s: State, taken: seq<Entry>, t: State) {
    if t.loop.Quitted? then
      taken != [] && taken[|taken| - 1].Quit? && (s.queue <= taken || taken <= s.queue)
    else
      s.queue <= taken + t.queue
  }

  lemma StepInOrder(s: State, taken: seq<Entry>, t: State, u: State)
    requires InOrder(s, taken, t) && t.loop.Running? && t.queue != []
    requires u.loop.Quitted? <==> t.queue[0].Quit?
    requires !u.loop.Quitted? ==> t.queue[1..] <= u.queue
    ensures InOrder(s, taken + [t.queue[0]], u)
  {
    var e := t.queue[0];
    assert taken + t.queue == (taken + [e]) + t.queue[1..];
    if u.loop.Quitted? {
      assert taken + [e] <= taken + t.queue;
    } else {
      assert (taken + [e]) + t.queue[1..] <= (taken + [e]) + u.queue;
    }
  }

  lemma {:induction false} DispatchedInOrder(p: Program, s: State, more: seq<Act>)
    requires Inv(p, s) && s.loop.Running?
    ensures InOrder(s, Dispatched(p, s, more), Run(p, s, more))
  {
    hide Inv, Next, InOrder;
    if more == [] {
      assert InOrder(s, [], s) by { StartsInOrder(s); }
    } else {
      var before, last := more[..|more| - 1], more[|more| - 1];
      DispatchedInOrder(p, s, before);
      StageNeverGoesBack(p, s, before);
      var t := Run(p, s, before);
      var u := Next(p, t, last);
      var taken := Dispatched(p, s, before);
      NextInOrder(p, t, last);
      if last.Dispatch? && t.loop.Running? && t.queue != [] {
        StepInOrder(s, taken, t, u);
      } else {
        IdleInOrder(s, taken, t, u);
      }
    }
  }

  lemma StartsInOrder(s: State)
    requires s.loop.Running?
    ensures InOrder(s, [], s)
  {}

  lemma IdleInOrder(s: State, taken: seq<Entry>, t: State, u: State)
    requires InOrder(s, taken, t) && u.loop == t.loop && t.queue <= u.queue
    ensures InOrder(s, taken, u)
  {
    assert taken + t.queue <= taken + u.queue;
  }

  lemma {:induction false} DispatchedAppend(p: Program, s: State, a: seq<Act>, b: seq<Act>)
    ensures Dispatched(p, s, a + b) == Dispatched(p, s, a) + Dispatched(p, Run(p, s, a), b)
    decreases |b|
  {
    hide Next;
    if b == [] {
      assert a + b == a;
    } else {
      DispatchedAppend(p, s, a, b[..|b| - 1]);
      RunAppend(p, s, a, b[..|b| - 1]);
      assert (a + b)[..|a + b| - 1] == a + b[..|b| - 1];
    }
  }

  lemma FailTaken(s: State, taken: seq<Entry>, t: State, i: nat)
    requires InOrder(s, taken, t) && t.loop.Quitted?
    requires i < |s.queue| && s.queue[i].Fail? && Quit !in s.queue[..i]
    ensures Fail in taken
  {
    assert forall k | 0 <= k < i :: s.queue[..i][k] == s.queue[k];
    assert |taken| > i;
    assert taken[i] == Fail;
  }

  // A fail request that is queued ahead of any quit entry decides the verdict, whatever happens
  // until the run ends.
  lemma FailRequestDecides(p: Program, s: State, early: seq<Entry>, acts: seq<Act>, more: seq<Act>, i: nat)
    requires Startable(s) && OnlyEvents(early)
    requires var t := Run(p, Begin(s, early), acts);
             t.loop.Running? && i < |t.queue| && t.queue[i].Fail? && Quit !in t.queue[..i]
    requires !Run(p, Begin(s, early), acts + more).loop.Running?
    ensures Run(p, Begin(s, early), acts + more).verdict.Failed?
  {
    hide Inv, InOrder, Next;
    var b := Begin(s, early);
    var t := Run(p, b, acts);
    RunKeeps(p, s, early, acts);
    RunAppend(p, b, acts, more);
    DispatchedInOrder(p, t, more);
    DispatchedAppend(p, b, acts, more);
    VerdictIsFold(p, s, early, acts + more);
    if !Run(p, b, acts + more).loop.Crashed? {
      FailTaken(t, Dispatched(p, t, more), Run(p, t, more), i);
    }
  }

  // As long as nobody calls stop(), that is every fail request queued before DONE.
  lemma FailBeforeDoneDecides(p: Program, s: State, early: seq<Entry>, acts: seq<Act>, more: seq<Act>)
    requires Startable(s) && OnlyEvents(early) && NobodyStops(acts)
    requires var t := Run(p, Begin(s, early), acts);
             t.loop.Running? && !t.stage.Done? && Fail in t.queue
    requires !Run(p, Begin(s, early), acts + more).loop.Running?
    ensures Run(p, Begin(s, early), acts + more).verdict.Failed?
  {
    FailuresOnRecord(p, s, early, acts);
    var t := Run(p, Begin(s, early), acts);
    var i :| 0 <= i < |t.queue| && t.queue[i] == Fail;
    assert Quit !in t.queue[..i];
    FailRequestDecides(p, s, early, acts, more, i);
  }

  // ---------- set_fail() in a callback ----------

  // A fail request with no quit entry ahead of it.
  predicate FailAhead(q: seq<Entry>) {
    exists i | 0 <= i < |q| :: q[i].Fail? && Quit !in q[..i]
  }

  // The user code calls set_fail(), and stop() not before that.
  predicate AsksToFail(effects: seq<Effect>) {
    exists k | 0 <= k < |effects| :: effects[k].SetFail? && Stop !in effects[..k]
  }

  lemma FailStaysAhead(q: seq<Entry>, r: seq<Entry>)
    requires FailAhead(q) && q <= r
    ensures FailAhead(r)
  {
    var i :| 0 <= i < |q| && q[i].Fail? && Quit !in q[..i];
    assert r[..i] == q[..i] && r[i] == q[i];
  }

  lemma {:induction false} AskedFailIsAhead(s: State, effects: seq<Effect>)
    requires AsksToFail(effects) && Quit !in s.queue
    ensures FailAhead(Call(s, effects).queue)
    decreases |effects|
  {
    var k :| 0 <= k < |effects| && effects[k].SetFail? && Stop !in effects[..k];
    var s1 := Perform(s, effects[0]);
    CallBeside(s1, effects[1..]);
    if k == 0 {
      assert s1.queue[|s.queue|] == Fail && s1.queue[..|s.queue|] == s.queue;
      FailStaysAhead(s1.queue, Call(s, effects).queue);
    } else {
      assert effects[0] == effects[..k][0];
      assert effects[1..][k - 1] == effects[k] && effects[1..][..k - 1] == effects[..k][1..];
      AskedFailIsAhead(s1, effects[1..]);
    }
  }

  // The callback of an execute step.
  lemma ExecuteFailIsAhead(p: Program, s: State, c: Choice)
    requires s.steps != [] && s.steps[0].action.Execute? && s.steps[0].hasCallback
    requires s.loop.Running? && Quit !in s.queue && AsksToFail(c.step(0).effects)
    ensures FailAhead(DoNextStep(p, s, c).queue)
  {
    hide RemoveStep, Crash, FailAhead;
    var x := s.steps[0];
    var s1 := Call(Note(s, Ran(x)), c.step(0).effects);
    AskedFailIsAhead(Note(s, Ran(x)), c.step(0).effects);
    CrashMoves(p, s1);
    RemoveMoves(p, s1, x);
    FailStaysAhead(s1.queue, DoNextStep(p, s, c).queue);
  }

  // The event gets as far as the step at position i and makes it call its callback.
  ghost predicate CallsBack(s: State, i: nat, source: nat, line: string, c: Choice) {
    && InBlock(s, i) && NobodyTakes(s, source, line, c, 0, i) && s.steps[i].source == source && s.steps[i].hasCallback
    && match CellOf(s, s.steps[i]).data
       case Phrase(text) => Contains(line, text)
       case Message(d) => Capture.Feed(d, CellOf(s, s.steps[i]).storage, line).1.Just? && !c.parserRaises
       case Phrases(texts) => texts != [] && Contains(line, texts[0])
       case NoData => false
  }

  lemma {:induction false} NoStopNoQuit(s: State, effects: seq<Effect>)
    requires Stop !in effects && Quit !in s.queue
    ensures Quit !in Call(s, effects).queue
    decreases |effects|
  {
    if effects != [] {
      NoStopNoQuit(Perform(s, effects[0]), effects[1..]);
    }
  }

  lemma MessageFailIsAhead(p: Program, s: State, x: Step, d: Capture.MsgDescriptor, line: string, c: Choice, i: nat)
    requires x in s.steps && x.hasCallback && s.loop.Running? && Quit !in s.queue && AsksToFail(c.step(i).effects)
    requires Capture.Feed(d, CellOf(s, x).storage, line).1.Just? && !c.parserRaises
    ensures FailAhead(DoMessage(p, s, x, d, line, c, i).queue)
  {
    hide RemoveStep, Crash, FailAhead, AsksToFail, Capture.Feed, Moves;
    var cell, r := CellOf(s, x), c.step(i);
    var s1 := SetCell(s, x, cell.(storage := Capture.Feed(d, cell.storage, line).0));
    AskedFailIsAhead(s1, r.effects);
    CalledGoesOn(p, Call(s1, r.effects), x);
    FailStaysAhead(Call(s1, r.effects).queue, DoMessage(p, s, x, d, line, c, i).queue);
  }

  lemma ListFailIsAhead(p: Program, s: State, x: Step, c: Choice, i: nat)
    requires x in s.steps && x.hasCallback && s.loop.Running? && Quit !in s.queue && AsksToFail(c.step(i).effects)
    requires CellOf(s, x).data.Phrases? && CellOf(s, x).data.texts != []
    ensures FailAhead(DoPhrases(p, s, x, c, i).queue)
  {
    hide RemoveStep, Crash, FailAhead, AsksToFail, Moves;
    var cell, r := CellOf(s, x), c.step(i);
    var s1 := if r.Returns? && r.ok then SetCell(s, x, cell.(data := Phrases(cell.data.texts[1..]))) else s;
    AskedFailIsAhead(s1, r.effects);
    CalledGoesOn(p, Call(s1, r.effects), x);
    FailStaysAhead(Call(s1, r.effects).queue, DoPhrases(p, s, x, c, i).queue);
  }

  // What follows a callback only adds to the queue.
  lemma CalledGoesOn(p: Program, s: State, x: Step)
    requires x in s.steps && s.loop.Running?
    ensures s.queue <= Crash(p, s).queue && s.queue <= RemoveStep(p, s, x).queue
  {
    hide RemoveStep, Crash, Tells, SawFailure;
    CrashMoves(p, s);
    RemoveMoves(p, s, x);
  }

  lemma CalledBackFailIsAhead(p: Program, s: State, source: nat, line: string, c: Choice, i: nat)
    requires s.loop.Running? && Quit !in s.queue && AsksToFail(c.step(i).effects)
    requires CallsBack(s, i, source, line, c)
    ensures FailAhead(Scan(p, s, source, line, c, i).queue)
  {
    hide RemoveStep, Crash, FailAhead, Contains, NobodyTakes, AsksToFail, DoMessage, DoPhrases, Capture.Feed;
    var x := s.steps[i];
    assert x == s.steps[..i + 1][i];
    match CellOf(s, x).data {
      case Message(d) => MessageFailIsAhead(p, s, x, d, line, c, i);
      case Phrases(_) => ListFailIsAhead(p, s, x, c, i);
      case Phrase(_) =>
        var s1 := Call(s, c.step(i).effects);
        AskedFailIsAhead(s, c.step(i).effects);
        CalledGoesOn(p, s1, x);
        ScanMoves(p, s1, source, line, c, i + 1);
        FailStaysAhead(s1.queue, Scan(p, s, source, line, c, i).queue);
    }
  }

  // The callback of a WAIT_FOR step, also of one that declines.
  lemma {:induction false} WaitFailIsAhead(p: Program, s: State, source: nat, line: string, c: Choice, m: nat, i: nat)
    requires s.loop.Running? && Quit !in s.queue && AsksToFail(c.step(i).effects) && m <= i
    requires CallsBack(s, i, source, line, c) && forall k: nat | k < i :: Stop !in c.step(k).effects
    ensures FailAhead(Scan(p, s, source, line, c, m).queue)
    decreases i - m
  {
    hide RemoveStep, Crash, DoMessage, DoPhrases, FailAhead, Contains, AsksToFail;
    if m == i {
      CalledBackFailIsAhead(p, s, source, line, c, i);
    } else {
      assert InBlock(s, m) && s.steps[m] == s.steps[..i + 1][m] by {
        assert s.steps[..m + 1] == s.steps[..i + 1][..m + 1];
      }
      var s1 := Call(s, c.step(m).effects);
      NoStopNoQuit(s, c.step(m).effects);
      SameTakers(s, s1, source, line, c, 0, i);
      WaitFailIsAhead(p, s, source, line, c, m + 1, i);
      WaitFailIsAhead(p, s1, source, line, c, m + 1, i);
    }
  }

  // The next dispatch calls the callback of a step, and that callback asks for a failure.
  ghost predicate AsksInStep(s: State, c: Choice) {
    s.queue != [] &&
    match s.queue[0]
    case NextStep =>
      s.steps != [] && s.steps[0].action.Execute? && s.steps[0].hasCallback && AsksToFail(c.step(0).effects)
    case Event(source, line) =>
      exists i: nat :: CallsBack(s, i, source, line, c) && AsksToFail(c.step(i).effects)
                       && forall k: nat | k < i :: Stop !in c.step(k).effects
    case _ => false
  }

  lemma AskingPutsFailAhead(p: Program, s: State, c: Choice)
    requires s.loop.Running? && Quit !in s.queue && AsksInStep(s, c)
    ensures FailAhead(Next(p, s, Dispatch(c)).queue)
  {
    hide Scan, RunMonitors, FailAhead, AsksToFail, DoNextStep, Contains;
    var s1 := Pop(s);
    assert Quit !in s1.queue by { assert forall e | e in s1.queue :: e in s.queue; }
    match s.queue[0] {
      case NextStep => ExecuteFailIsAhead(p, s1, c);
      case Event(source, line) =>
        var i: nat :| CallsBack(s, i, source, line, c) && AsksToFail(c.step(i).effects)
                      && forall k: nat | k < i :: Stop !in c.step(k).effects;
        SameTakers(s, s1, source, line, c, 0, i);
        WaitFailIsAhead(p, s1, source, line, c, 0, i);
        var s2 := Scan(p, s1, source, line, c, 0);
        ScanMoves(p, s1, source, line, c, 0);
        if !s2.loop.Crashed? {
          MonitorsMove(p, s2, source, c, 0);
          FailStaysAhead(s2.queue, RunMonitors(p, s2, source, c, 0).queue);
        }
    }
  }

  // set_fail() called from the callback of any step makes the test fail, also when that step is
  // the last one and the same dispatch gets to DONE, and whatever happens until the run ends.
  lemma StepSetFailDecides(p: Program, s: State, early: seq<Entry>, acts: seq<Act>, c: Choice, more: seq<Act>)
    requires Startable(s) && OnlyEvents(early) && NobodyStops(acts)
    requires var t := Run(p, Begin(s, early), acts);
             t.loop.Running? && !t.stage.Done? && AsksInStep(t, c)
    requires !Run(p, Begin(s, early), acts + [Dispatch(c)] + more).loop.Running?
    ensures Run(p, Begin(s, early), acts + [Dispatch(c)] + more).verdict.Failed?
  {
    hide Inv, Next, AsksInStep;
    var b, now := Begin(s, early), acts + [Dispatch(c)];
    FailuresOnRecord(p, s, early, acts);
    AskingPutsFailAhead(p, Run(p, b, acts), c);
    assert now[..|acts|] == acts;
    var t := Run(p, b, now);
    var i :| 0 <= i < |t.queue| && t.queue[i].Fail? && Quit !in t.queue[..i];
    if t.loop.Running? {
      FailRequestDecides(p, s, early, now, more, i);
    } else {
      RunAppend(p, b, now, more);
      EndedStays(p, t, more);
      VerdictIsFold(p, s, early, now);
      NextTells(p, Run(p, b, acts), Dispatch(c));
    }
  }

  lemma {:induction false} EndedStays(p: Program, s: State, more: seq<Act>)
    requires !s.loop.Running?
    ensures Run(p, s, more) == s
  {
    if more != [] {
      EndedStays(p, s, more[..|more| - 1]);
    }
  }
}
