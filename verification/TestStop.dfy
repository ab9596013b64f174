// What a queued quit entry does to the run: stop() before the steps are done, and requests that
// come too late.
module TestStop {
  import opened Text
  import opened EventLoop
  import Capture
  import opened TestModel
  import opened TestHistory
  import opened Barrier
  import opened TestInvariants
  import opened TestSafety
  import opened TestTheorems
  import opened TestVerdict
  import opened TestLiveness
  import opened TestOrder

  // The steps still to be removed before DONE, if no failure comes.
  function Remaining(p: Program, s: State): nat {
    |s.steps| + Later(p, s.stage)
  }

  // TEST is going to follow SETUP.
  predicate NoSkip(s: State) {
    s.stage.Setup? ==> !s.verdict.Failed?
  }

  lemma {:induction false} NextStageRemaining(p: Program, s: State)
    requires s.steps == [] && NoSkip(s)
    ensures Remaining(p, NextStage(p, s)) == Remaining(p, s)
    decreases 4 - Rank(s.stage)
  {
    if !s.stage.Done? {
      EnterEffect(p, s);
      if EnterNext(p, s).steps == [] {
        NextStageRemaining(p, EnterNext(p, s));
      }
    }
  }

  // One dispatch without failure removes at most one step.
  predicate OneAtMost(p: Program, s: State, t: State) {
    t.loop.Crashed? || Remaining(p, s) <= Remaining(p, t) + 1
  }

  lemma RemoveRemaining(p: Program, s: State, x: Step)
    requires x in s.steps && NoSkip(s)
    ensures OneAtMost(p, s, RemoveStep(p, s, x))
  {
    var s1 := Note(s.(steps := Without(s.steps, x)), Removed(x));
    if s1.steps == [] {
      NextStageRemaining(p, s1);
    }
  }

  // The stage, the verdict and the steps are the same.
  predicate SamePhase(s: State, t: State) {
    t.stage == s.stage && t.verdict == s.verdict && t.steps == s.steps
  }

  lemma DoMessageRemaining(p: Program, s: State, x: Step, d: Capture.MsgDescriptor, line: string, c: Choice, i: nat)
    requires x in s.steps && NoSkip(s)
    ensures OneAtMost(p, s, DoMessage(p, s, x, d, line, c, i))
  {
    hide RemoveStep, Crash;
    var cell := CellOf(s, x);
    var s1 := SetCell(s, x, cell.(storage := Capture.Feed(d, cell.storage, line).0));
    var s2 := Call(s1, c.step(i).effects);
    CrashEnds(p, s1);
    CrashEnds(p, s2);
    RemoveRemaining(p, s1, x);
    RemoveRemaining(p, s2, x);
  }

  lemma DoPhrasesRemaining(p: Program, s: State, x: Step, c: Choice, i: nat)
    requires x in s.steps && NoSkip(s) && CellOf(s, x).data.Phrases? && CellOf(s, x).data.texts != []
    ensures OneAtMost(p, s, DoPhrases(p, s, x, c, i))
  {
    hide RemoveStep, Crash;
    var cell, r := CellOf(s, x), c.step(i);
    var shorter := SetCell(s, x, cell.(data := Phrases(cell.data.texts[1..])));
    CrashEnds(p, Call(s, r.effects));
    RemoveRemaining(p, shorter, x);
    RemoveRemaining(p, Call(s, r.effects), x);
    RemoveRemaining(p, Call(shorter, r.effects), x);
  }

  lemma {:induction false} ScanRemaining(p: Program, s: State, source: nat, line: string, c: Choice, i: nat)
    requires i <= |s.steps| && NoSkip(s)
    ensures OneAtMost(p, s, Scan(p, s, source, line, c, i))
    decreases |s.steps| - i
  {
    hide RemoveStep, Crash, DoMessage, DoPhrases, Contains, Later;
    if i < |s.steps| && s.steps[i].action.WaitFor? {
      var x := s.steps[i];
      var s1 := Call(s, c.step(i).effects);
      CrashEnds(p, s);
      CrashEnds(p, s1);
      RemoveRemaining(p, s, x);
      RemoveRemaining(p, s1, x);
      ScanRemaining(p, s, source, line, c, i + 1);
      ScanRemaining(p, s1, source, line, c, i + 1);
      match CellOf(s, x).data {
        case Message(d) => DoMessageRemaining(p, s, x, d, line, c, i);
        case Phrases(texts) =>
          if texts != [] {
            DoPhrasesRemaining(p, s, x, c, i);
          }
        case _ =>
      }
    }
  }

  lemma {:induction false} MonitorsSamePhase(p: Program, s: State, source: nat, c: Choice, i: nat)
    requires i <= |s.monitors|
    ensures var t := RunMonitors(p, s, source, c, i);
            t.loop.Crashed? || SamePhase(s, t)
    decreases |s.monitors| - i
  {
    hide Crash;
    if i < |s.monitors| {
      var s1 := Call(s, c.monitor(i).effects);
      CrashEnds(p, s1);
      MonitorsSamePhase(p, s, source, c, i + 1);
      if SameNames(s.monitors, s1.monitors) {
        MonitorsSamePhase(p, s1, source, c, i + 1);
      }
    }
  }

  lemma NextStepRemaining(p: Program, s: State, c: Choice)
    requires NoSkip(s)
    ensures OneAtMost(p, s, DoNextStep(p, s, c))
  {
    hide RemoveStep, Crash, NextStage;
    if s.steps == [] {
      NextStageRemaining(p, s);
    } else {
      var x := s.steps[0];
      var (s1, raised) := RunAction(s, x, c.step(0));
      CrashEnds(p, s1);
      RemoveRemaining(p, s1, x);
    }
  }

  lemma HandleRemaining(p: Program, s: State, e: Entry, c: Choice)
    requires NoSkip(s) && !e.Fail?
    ensures OneAtMost(p, s, Handle(p, s, e, c))
    ensures e.Quit? ==> Remaining(p, Handle(p, s, e, c)) == Remaining(p, s)
  {
    hide Scan, RunMonitors, DoNextStep, Later;
    match e {
      case NextStep => NextStepRemaining(p, s, c);
      case Event(source, line) =>
        ScanRemaining(p, s, source, line, c, 0);
        MonitorsSamePhase(p, Scan(p, s, source, line, c, 0), source, c, 0);
      case Quit =>
    }
  }

  // ---------- a quit entry ahead of every fail request ----------

  // A quit entry with no fail request and fewer than n entries ahead of it.
  predicate QuitWithin(q: seq<Entry>, n: nat) {
    exists i | 0 <= i < |q| && i < n :: q[i].Quit? && Fail !in q[..i]
  }

  predicate QuitAhead(q: seq<Entry>) {
    QuitWithin(q, |q|)
  }

  lemma QuitComesNearer(q: seq<Entry>, r: seq<Entry>, n: nat)
    requires QuitWithin(q, n) && !q[0].Quit? && q[1..] <= r
    ensures n > 1 && QuitWithin(r, n - 1) && !q[0].Fail?
  {
    var i :| 0 <= i < |q| && i < n && q[i].Quit? && Fail !in q[..i];
    assert r[i - 1] == q[1..][i - 1] && r[..i - 1] == q[..i][1..] && q[0] == q[..i][0];
  }

  lemma QuitStays(q: seq<Entry>, r: seq<Entry>, n: nat)
    requires QuitWithin(q, n) && q <= r
    ensures QuitWithin(r, n)
  {
    var i :| 0 <= i < |q| && i < n && q[i].Quit? && Fail !in q[..i];
    assert r[i] == q[i] && r[..i] == q[..i];
  }

  lemma QuitWithoutFail(q: seq<Entry>, r: seq<Entry>)
    requires Quit in q && Fail !in q && q <= r
    ensures QuitAhead(r)
  {
    var i :| 0 <= i < |q| && q[i] == Quit;
    assert r[i] == Quit && r[..i] == q[..i];
  }

  // If the loop quits it does so with this verdict, and with at least n steps not removed.
  predicate Bound(p: Program, s: State, v: Verdict, n: int) {
    && s.verdict == v
    && (s.loop.Running? ==> exists k: nat :: QuitWithin(s.queue, k) && k + n <= Remaining(p, s) + 1)
    && (s.loop.Quitted? ==> n <= Remaining(p, s))
  }

  lemma DispatchKeepsVerdict(p: Program, s: State, c: Choice)
    requires Inv(p, s) && s.loop.Running? && s.queue != [] && !s.queue[0].Fail? && !s.stage.NoStage?
    ensures var t := Handle(p, Pop(s), s.queue[0], c);
            !t.loop.Crashed? ==> t.verdict == s.verdict
  {
    hide Handle, Reorders, Progress;
    DispatchKeeps(p, s, c);
  }

  lemma NoFailNoSkip(p: Program, s: State)
    requires Core(p, s) && Settled(s)
    ensures NoSkip(s)
  {
    hide Progress;
  }

  lemma BoundStep(p: Program, s: State, a: Act, v: Verdict, n: int)
    requires Inv(p, s) && Bound(p, s, v, n) && s.loop.Running?
    ensures var t := Next(p, s, a);
            t.loop.Crashed? || Bound(p, t, v, n)
  {
    hide Core, Reorders, Handle, QuitWithin, Remaining;
    var k: nat :| QuitWithin(s.queue, k) && k + n <= Remaining(p, s) + 1;
    if a.Dispatch? {
      QuitIsQueued(s.queue, k);
      NoFailNoSkip(p, s);
      HandleRemaining(p, Pop(s), s.queue[0], a.choice) by { QuitIsFirst(s.queue, k); }
      SameRemaining(p, s, Pop(s));
      QuitIsFirst(s.queue, k);
      DispatchKeepsVerdict(p, s, a.choice);
      DispatchKeeps(p, s, a.choice);
      if !s.queue[0].Quit? {
        QuitComesNearer(s.queue, Next(p, s, a).queue, k);
      }
    } else {
      QuitStays(s.queue, Next(p, s, a).queue, k);
      SameRemaining(p, s, Next(p, s, a));
    }
  }

  lemma SameRemaining(p: Program, s: State, t: State)
    requires SamePhase(s, t)
    ensures Remaining(p, t) == Remaining(p, s)
  {}

  lemma QuitIsQueued(q: seq<Entry>, k: nat)
    requires QuitWithin(q, k)
    ensures Quit in q && k >= 1
  {}

  lemma QuitIsFirst(q: seq<Entry>, k: nat)
    requires QuitWithin(q, k)
    ensures q != [] && !q[0].Fail?
  {
    var i :| 0 <= i < |q| && i < k && q[i].Quit? && Fail !in q[..i];
    assert i > 0 ==> q[0] == q[..i][0];
  }

  lemma {:induction false} BoundRun(p: Program, s: State, more: seq<Act>, v: Verdict, n: int)
    requires Inv(p, s) && Bound(p, s, v, n)
    ensures var t := Run(p, s, more);
            Inv(p, t) && (t.loop.Crashed? || Bound(p, t, v, n))
  {
    hide Inv, Next, Bound;
    if more != [] {
      var before, last := more[..|more| - 1], more[|more| - 1];
      BoundRun(p, s, before, v, n);
      var t := Run(p, s, before);
      NextKeeps(p, t, last);
      NextRecords(p, t, last);
      if t.loop.Running? {
        BoundStep(p, t, last, v, n);
      }
    }
  }

  lemma UnfinishedEnd(p: Program, t: State)
    requires Inv(p, t) && t.loop.Quitted? && Remaining(p, t) > 0
    ensures !t.stage.Done? && !AllPhasesDone(p, t.history)
  {
    hide Reorders, Core;
    if Active(t.stage) {
      PhaseFollowsList(p, t, t.stage);
      CurrentPhaseUnfinished(p, t);
    }
  }

  // A quit entry queued, by stop() at any point of the run, with fewer entries than steps to go
  // ahead of it and no fail request: if the loop ends by a quit entry, it ends before DONE, with
  // phases not carried out, and with the verdict there was.
  lemma StopCutsShort(p: Program, s: State, early: seq<Entry>, acts: seq<Act>, more: seq<Act>, i: nat)
    requires Startable(s) && OnlyEvents(early)
    requires var now := Run(p, Begin(s, early), acts);
             && now.loop.Running? && i < |now.queue| && now.queue[i].Quit? && Fail !in now.queue[..i]
             && i < Remaining(p, now)
    requires Run(p, Begin(s, early), acts + more).loop.Quitted?
    ensures var now, t := Run(p, Begin(s, early), acts), Run(p, Begin(s, early), acts + more);
            !t.stage.Done? && !AllPhasesDone(p, t.history) && t.verdict == now.verdict
  {
    hide Inv, AllPhasesDone, Next, Remaining;
    var now := Run(p, Begin(s, early), acts);
    RunKeeps(p, s, early, acts);
    RunAppend(p, Begin(s, early), acts, more);
    assert QuitWithin(now.queue, i + 1);
    BoundRun(p, now, more, now.verdict, 1);
    UnfinishedEnd(p, Run(p, now, more));
  }

  // A fail request that comes behind a quit entry is too late: a loop that ends by a quit entry
  // ends with the verdict there was.
  lemma LateFailIsIgnored(p: Program, s: State, early: seq<Entry>, acts: seq<Act>, more: seq<Act>)
    requires Startable(s) && OnlyEvents(early)
    requires var now := Run(p, Begin(s, early), acts);
             now.loop.Running? && QuitAhead(now.queue)
    requires Run(p, Begin(s, early), acts + more).loop.Quitted?
    ensures Run(p, Begin(s, early), acts + more).verdict == Run(p, Begin(s, early), acts).verdict
  {
    hide Inv, Next;
    var now := Run(p, Begin(s, early), acts);
    RunKeeps(p, s, early, acts);
    RunAppend(p, Begin(s, early), acts, more);
    BoundRun(p, now, more, now.verdict, Remaining(p, now) + 1 - |now.queue|);
  }

  // A fail request queued now is ahead of all quit entries, unless one of those is ahead already.
  lemma {:induction false} FailGetsAhead(q: seq<Entry>)
    ensures QuitAhead(q) || FailAhead(q + [Fail])
  {
    var r := q + [Fail];
    if q == [] || q[0].Fail? {
      assert r[0].Fail? && Quit !in r[..0];
    } else if q[0].Quit? {
      assert Fail !in q[..0];
    } else {
      var rest := q[1..];
      assert r[1..] == rest + [Fail];
      FailGetsAhead(rest);
      if QuitAhead(rest) {
        var i :| 0 <= i < |rest| && i < |rest| && rest[i].Quit? && Fail !in rest[..i];
        assert q[i + 1].Quit? && q[..i + 1] == [q[0]] + rest[..i];
      } else {
        var i :| 0 <= i < |r[1..]| && r[1..][i].Fail? && Quit !in r[1..][..i];
        assert r[i + 1].Fail? && r[..i + 1] == [r[0]] + r[1..][..i];
      }
    }
  }

  // A timer that ran out makes the test fail only if its request still comes ahead of the quit
  // entries: at the moment the request is queued, the run is going to fail exactly when it has
  // failed already, or an exception is still to come, or no quit entry stands in the queue without
  // a fail request before it.
  lemma TimeoutDecidesIff(p: Program, s: State, early: seq<Entry>, acts: seq<Act>, more: seq<Act>)
    requires Startable(s) && OnlyEvents(early)
    requires Run(p, Begin(s, early), acts).loop.Running? && Run(p, Begin(s, early), acts).expiring > 0
    requires !Run(p, Begin(s, early), acts + [TimeoutPosted] + more).loop.Running?
    ensures var now, t := Run(p, Begin(s, early), acts), Run(p, Begin(s, early), acts + [TimeoutPosted] + more);
            t.verdict.Failed? <==> t.loop.Crashed? || now.verdict.Failed? || !QuitAhead(now.queue)
  {
    hide Inv, QuitAhead, FailAhead;
    var b, done := Begin(s, early), acts + [TimeoutPosted];
    var now := Run(p, b, acts);
    assert done[..|acts|] == acts;
    var posted := Run(p, b, done);
    assert posted == Post(now.(expiring := now.expiring - 1), Fail);
    hide Next, Run;
    VerdictIsFold(p, s, early, done + more);
    if QuitAhead(now.queue) {
      QuitAheadStays(now.queue, posted.queue);
      if !Run(p, b, done + more).loop.Crashed? {
        LateFailIsIgnored(p, s, early, done, more);
      }
    } else {
      FailGetsAhead(now.queue);
      FailAheadDecides(p, s, early, done, more);
    }
  }

  lemma QuitAheadStays(q: seq<Entry>, r: seq<Entry>)
    requires QuitAhead(q) && q <= r
    ensures QuitAhead(r)
  {
    var i :| 0 <= i < |q| && i < |q| && q[i].Quit? && Fail !in q[..i];
    assert r[i].Quit? && r[..i] == q[..i];
  }

  lemma FailAheadDecides(p: Program, s: State, early: seq<Entry>, acts: seq<Act>, more: seq<Act>)
    requires Startable(s) && OnlyEvents(early)
    requires Run(p, Begin(s, early), acts).loop.Running? && FailAhead(Run(p, Begin(s, early), acts).queue)
    requires !Run(p, Begin(s, early), acts + more).loop.Running?
    ensures Run(p, Begin(s, early), acts + more).verdict.Failed?
  {
    hide Run;
    var q := Run(p, Begin(s, early), acts).queue;
    var i :| 0 <= i < |q| && q[i].Fail? && Quit !in q[..i];
    FailRequestDecides(p, s, early, acts, more, i);
  }

  // So is set_fail() called by a monitor on the event that removed the last step: that dispatch
  // has got to DONE and queued the quit entry before the monitors run.
  lemma MonitorFailIsLate(p: Program, s: State, early: seq<Entry>, acts: seq<Act>, c: Choice, more: seq<Act>)
    requires Startable(s) && OnlyEvents(early)
    requires var now := Run(p, Begin(s, early), acts);
             && now.loop.Running? && now.queue != [] && now.queue[0].Event?
             && var scanned := Scan(p, Pop(now), now.queue[0].source, now.queue[0].line, c, 0);
             scanned.stage.Done? && Fail !in scanned.queue && !now.stage.Done?
    requires Run(p, Begin(s, early), acts + [Dispatch(c)] + more).loop.Quitted?
    ensures Run(p, Begin(s, early), acts + [Dispatch(c)] + more).verdict == Run(p, Begin(s, early), acts).verdict
  {
    hide Inv, Next, QuitAhead;
    var b, done := Begin(s, early), acts + [Dispatch(c)];
    var now := Run(p, b, acts);
    assert done[..|acts|] == acts;
    RunKeeps(p, s, early, acts);
    ScannedToDone(p, now, c);
    if Next(p, now, Dispatch(c)).loop.Running? {
      LateFailIsIgnored(p, s, early, done, more);
    } else {
      RunAppend(p, b, done, more);
      EndedStays(p, Run(p, b, done), more);
    }
  }

  lemma ScannedToDone(p: Program, s: State, c: Choice)
    requires Inv(p, s) && s.loop.Running? && s.queue != [] && s.queue[0].Event? && !s.stage.Done?
    requires var scanned := Scan(p, Pop(s), s.queue[0].source, s.queue[0].line, c, 0);
             scanned.stage.Done? && Fail !in scanned.queue
    ensures var t := Next(p, s, Dispatch(c));
            !t.loop.Quitted? && (t.loop.Running? ==> QuitAhead(t.queue) && t.verdict == s.verdict)
  {
    hide Core, Reorders, Scan, RunMonitors, QuitAhead, Guarded, RanDone, Settled, SawFailure, QuitFits;
    PopKeeps(p, s);
    var s1, source := Pop(s), s.queue[0].source;
    ScanKeeps(p, s1, source, s.queue[0].line, c, 0);
    var s2 := Scan(p, s1, source, s.queue[0].line, c, 0);
    DispatchKeeps(p, s, c);
    if s2.loop.Running? {
      MonitorsMove(p, s2, source, c, 0);
      var t := RunMonitors(p, s2, source, c, 0);
      QuitWithoutFail(s2.queue, t.queue);
      if t.loop.Running? {
        DispatchKeepsVerdict(p, s, c);
      }
    }
  }
}
