// Repeated attempts at one test: what one attempt hands over to the next, and what is reported.
module TestRepeats {
  import opened Text
  import opened EventLoop
  import opened TestModel
  import opened TestHistory
  import opened TestInvariants
  import opened TestSafety
  import opened TestTheorems
  import opened TestEvents
  import opened TestVerdict
  import opened TestStorage

  // How one call of run() goes: the start condition refuses, a device does not open, or the loop
  // runs under some schedule. Afterwards `lost` requests of late timers are dropped, because there
  // is no loop to take them before the next attempt.
  datatype Attempt = Skipped | OpenFailed | Ran(early: seq<Entry>, acts: seq<Act>, lost: nat)

  predicate Legal(p: Program, s: State, a: Attempt) {
    a.Ran? ==>
      var t := Run(p, Begin(s, a.early), a.acts);
      Arrivals(s, a.early) && !t.loop.Running? && a.lost <= t.expiring
  }

  function RunAttempt(p: Program, s: State, a: Attempt): State {
    match a
    case Skipped => s
    case OpenFailed => Cleanup(s.(verdict := Failed))
    case Ran(early, acts, lost) =>
      var t := Cleanup(Run(p, Begin(s, early), acts));
      t.(expiring := if lost <= t.expiring then t.expiring - lost else 0)
  }

  // The runner resets the stage, and nothing else, before a repeat.
  function Prepared(s: State, j: nat): State {
    if j > 0 then s.(stage := NoStage) else s
  }

  // How often the runner may run a test, from its repeat_count option.
  function RunCount(repeatCount: Option<int>): (n: nat)
    ensures repeatCount.Nothing? ==> n == 1
    ensures repeatCount.Just? && repeatCount.value >= 0 ==> n == repeatCount.value + 1
    ensures repeatCount.Just? && repeatCount.value < 0 ==> n == 0
  {
    if repeatCount.Nothing? then 1 else if repeatCount.value < 0 then 0 else repeatCount.value + 1
  }

  predicate LegalFrom(p: Program, s: State, attempts: seq<Attempt>, j: nat)
    requires j <= |attempts|
    decreases |attempts| - j
  {
    j == |attempts| ||
    (var t := RunAttempt(p, Prepared(s, j), attempts[j]);
     && Legal(p, Prepared(s, j), attempts[j])
     && (t.verdict.Failed? ==> LegalFrom(p, t, attempts, j + 1)))
  }

  // The repeat loop of the runner: stop after the first attempt that does not fail.
  function RunRepeated(p: Program, s: State, attempts: seq<Attempt>, j: nat): State
    requires j <= |attempts|
    decreases |attempts| - j
  {
    if j == |attempts| then s
    else
      var t := RunAttempt(p, Prepared(s, j), attempts[j]);
      if t.verdict.Failed? then RunRepeated(p, t, attempts, j + 1) else t
  }

  // ---------- how many attempts are made ----------

  // The state after the first k attempts, if they are all made.
  function After(p: Program, s: State, attempts: seq<Attempt>, k: nat): State
    requires k <= |attempts|
  {
    if k == 0 then s
    else RunAttempt(p, Prepared(After(p, s, attempts, k - 1), k - 1), attempts[k - 1])
  }

  // The state the attempt at position k starts from.
  function StartOf(p: Program, s: State, attempts: seq<Attempt>, k: nat): State
    requires k <= |attempts|
  {
    Prepared(After(p, s, attempts, k), k)
  }

  // All of the first k attempts fail.
  predicate FailedUpTo(p: Program, s: State, attempts: seq<Attempt>, k: nat)
    requires k <= |attempts|
  {
    forall i | 1 <= i <= k :: After(p, s, attempts, i).verdict.Failed?
  }

  // The loop ends in the state after the first attempt that does not fail, or after the last one.
  predicate EndsAfter(p: Program, s: State, attempts: seq<Attempt>, k: nat) {
    && 1 <= k <= |attempts| && FailedUpTo(p, s, attempts, k - 1)
    && (k == |attempts| || !After(p, s, attempts, k).verdict.Failed?)
  }

  lemma {:induction false} RepeatsFrom(p: Program, s: State, attempts: seq<Attempt>, j: nat)
    requires j < |attempts| && FailedUpTo(p, s, attempts, j)
    ensures exists k :: EndsAfter(p, s, attempts, k)
                        && RunRepeated(p, After(p, s, attempts, j), attempts, j) == After(p, s, attempts, k)
    decreases |attempts| - j
  {
    hide RunAttempt;
    assert After(p, s, attempts, j + 1) == RunAttempt(p, Prepared(After(p, s, attempts, j), j), attempts[j]);
    if !After(p, s, attempts, j + 1).verdict.Failed? || j + 1 == |attempts| {
      assert FailedUpTo(p, s, attempts, j + 1 - 1) && EndsAfter(p, s, attempts, j + 1);
      assert RunRepeated(p, After(p, s, attempts, j), attempts, j) == After(p, s, attempts, j + 1);
    } else {
      RepeatsFrom(p, s, attempts, j + 1);
    }
  }

  // With repeat_count n, or 0 when it is not given, the test is run some k times, 1 <= k <= n + 1:
  // all but the last of them fail, and the last one does not, or k is n + 1.
  lemma RepeatsReport(p: Program, s: State, attempts: seq<Attempt>, repeatCount: Option<int>, n: nat)
    requires repeatCount == Just(n) || (repeatCount == Nothing && n == 0)
    requires |attempts| == RunCount(repeatCount)
    ensures exists k: nat :: 1 <= k <= n + 1 && FailedUpTo(p, s, attempts, k - 1)
                             && (k == n + 1 || !After(p, s, attempts, k).verdict.Failed?)
                             && RunRepeated(p, s, attempts, 0) == After(p, s, attempts, k)
  {
    RepeatsFrom(p, s, attempts, 0);
    var k: nat :| EndsAfter(p, s, attempts, k) && RunRepeated(p, s, attempts, 0) == After(p, s, attempts, k);
    assert 1 <= k <= n + 1;
  }

  // The first run starts from the stage the test is at: a test that is DONE enters no stage and does
  // no step, whatever happens. Only a repeat starts over.
  lemma {:induction false} DoneTestRunsNothing(p: Program, s: State, early: seq<Entry>, acts: seq<Act>)
    requires s.stage.Done? && s.steps == []
    ensures var t := Run(p, Begin(s, early), acts);
            && t.stage.Done? && t.steps == [] && t.monitors == [] && t.cells == s.cells
            && Visited(t.history) == [] && AllRemoved(t.history) == []
  {
    if acts != [] {
      DoneTestRunsNothing(p, s, early, acts[..|acts| - 1]);
    }
  }

  lemma FirstRunIsNotReset(p: Program, s: State, attempts: seq<Attempt>)
    requires s.stage.Done? && s.steps == [] && attempts != [] && attempts[0].Ran?
    ensures var t := After(p, s, attempts, 1);
            t.stage.Done? && Visited(t.history) == [] && AllRemoved(t.history) == [] && t.cells == s.cells
    ensures |attempts| > 1 ==> StartOf(p, s, attempts, 1).stage.NoStage?
  {
    assert After(p, s, attempts, 0) == s;
    DoneTestRunsNothing(p, s, attempts[0].early, attempts[0].acts);
  }

  // ---------- timers on their way ----------

  // How many timers ran out, and how many requests of expired timers reached the queue.
  function RanOut(p: Program, s: State, acts: seq<Act>): nat {
    if acts == [] then 0
    else
      var t := Run(p, s, acts[..|acts| - 1]);
      RanOut(p, s, acts[..|acts| - 1])
      + (if acts[|acts| - 1].TimerExpires? && t.loop.Running? && t.timer.Armed? then 1 else 0)
  }

  function Delivered(p: Program, s: State, acts: seq<Act>): nat {
    if acts == [] then 0
    else
      var t := Run(p, s, acts[..|acts| - 1]);
      Delivered(p, s, acts[..|acts| - 1])
      + (if acts[|acts| - 1].TimeoutPosted? && t.loop.Running? && t.expiring > 0 then 1 else 0)
  }

  lemma {:induction false} TimersOnTheirWay(p: Program, s: State, acts: seq<Act>)
    ensures Run(p, s, acts).expiring + Delivered(p, s, acts) == s.expiring + RanOut(p, s, acts)
  {
    hide Handle;
    if acts != [] {
      var t := Run(p, s, acts[..|acts| - 1]);
      TimersOnTheirWay(p, s, acts[..|acts| - 1]);
      NextTells(p, t, acts[|acts| - 1]);
    }
  }

  // ---------- when a repeat starts clean ----------

  // As before the first attempt: a fresh stage, no step and no timer left over, and the data and
  // the capture storage of all steps as declared.
  predicate Clean(s: State, declared: map<nat, Cell>) {
    Startable(s) && s.cells == declared && Unused(declared)
  }

  // A repeat starts clean if and only if the attempt before it reached DONE, each timer that ran
  // out had its request delivered or lost by then, no list of strings accepted a match, and no capture was left
  // open or interrupted.
  lemma RepeatStartsCleanIff(p: Program, s: State, a: Attempt, declared: map<nat, Cell>)
    requires Clean(s, declared) && a.Ran? && Legal(p, s, a)
    ensures var b := Begin(s, a.early);
            Clean(Prepared(RunAttempt(p, s, a), 1), declared) <==>
              && Done in Visited(Run(p, b, a.acts).history)
              && RanOut(p, b, a.acts) == Delivered(p, b, a.acts) + a.lost
              && LeavesNoTrace(p, b, a.acts)
  {
    hide LeavesNoTrace, Core;
    var b := Begin(s, a.early);
    NoFailsEarly(s, a.early);
    RunKeeps(p, s, a.early, a.acts);
    EndedLeftStart(p, Run(p, b, a.acts));
    DoneVisited(p, Run(p, b, a.acts));
    TimersOnTheirWay(p, b, a.acts);
    CellsKeptIff(p, b, a.acts);
  }

  lemma NoFailsEarly(s: State, early: seq<Entry>)
    requires Arrivals(s, early) && s.expiring == 0
    ensures OnlyEvents(early) && Begin(s, early).expiring == 0
  {}

  lemma DoneVisited(p: Program, t: State)
    requires Core(p, t)
    ensures Done in Visited(t.history) <==> t.stage.Done?
  {
    hide Progress;
  }

  // No callback calls stop(), nothing raises, and no timer is left on its way.
  ghost predicate Orderly(p: Program, s: State, a: Attempt) {
    a.Ran? ==>
      var b := Begin(s, a.early);
      && Legal(p, s, a) && NobodyStops(a.acts) && Run(p, b, a.acts).loop.Quitted?
      && RanOut(p, b, a.acts) == Delivered(p, b, a.acts) + a.lost
  }

  // An orderly attempt leaves a state the next one can start from, fails exactly when a fail entry
  // was dispatched or a device did not open, and leaves the steps alone if none of them waits for
  // a list of strings or a message.
  lemma OrderlyAttempt(p: Program, s: State, a: Attempt)
    requires Startable(s) && Orderly(p, s, a)
    ensures var t := RunAttempt(p, s, a);
            && Startable(Prepared(t, 1))
            && (PlainWaits(p, s.cells) ==> t.cells == s.cells)
            && (a.OpenFailed? ==> t.verdict.Failed?)
            && (a.Ran? ==> t.verdict == if Fail in Dispatched(p, Begin(s, a.early), a.acts) then Failed else Passed)
  {
    hide Run, Inv, Dispatched, PlainWaits, NobodyStops;
    if a.Ran? {
      NoFailsEarly(s, a.early);
      RunKeeps(p, s, a.early, a.acts);
      StepsFitStage(p, s, a.early, a.acts);
      PassCertifiesAllPhases(p, s, a.early, a.acts);
      VerdictIsFold(p, s, a.early, a.acts);
      TimersOnTheirWay(p, Begin(s, a.early), a.acts);
      if PlainWaits(p, s.cells) {
        PlainWaitsKeepCells(p, s, a.early, a.acts);
      }
    }
  }

  // Each attempt that is made is orderly.
  ghost predicate AllOrderly(p: Program, s: State, attempts: seq<Attempt>) {
    forall k | 0 <= k < |attempts| && FailedUpTo(p, s, attempts, k) ::
      Orderly(p, StartOf(p, s, attempts, k), attempts[k])
  }

  lemma {:induction false} RepeatsStartClean(p: Program, s: State, attempts: seq<Attempt>, k: nat)
    requires Startable(s) && AllOrderly(p, s, attempts) && k <= |attempts| && FailedUpTo(p, s, attempts, k)
    ensures Startable(StartOf(p, s, attempts, k))
    ensures PlainWaits(p, s.cells) ==> StartOf(p, s, attempts, k).cells == s.cells
  {
    hide Orderly, PlainWaits, RunAttempt;
    if k > 0 {
      RepeatsStartClean(p, s, attempts, k - 1);
      OrderlyAttempt(p, StartOf(p, s, attempts, k - 1), attempts[k - 1]);
    }
  }

  // If no attempt stops, raises or leaves a timer behind, and no step waits for a list of strings
  // or a message, every attempt starts from the same clean state.
  lemma EveryAttemptStartsClean(p: Program, s: State, attempts: seq<Attempt>, declared: map<nat, Cell>)
    requires Clean(s, declared) && PlainWaits(p, declared) && AllOrderly(p, s, attempts)
    ensures forall k | 0 <= k < |attempts| && FailedUpTo(p, s, attempts, k) ::
              Clean(StartOf(p, s, attempts, k), declared)
  {
    hide AllOrderly, PlainWaits, FailedUpTo, StartOf;
    forall k | 0 <= k < |attempts| && FailedUpTo(p, s, attempts, k)
      ensures Clean(StartOf(p, s, attempts, k), declared)
    {
      RepeatsStartClean(p, s, attempts, k);
    }
  }

  // ---------- lists of strings ----------

  // How many matches the list with this id accepted in the first k attempts.
  function MatchesBefore(p: Program, s: State, attempts: seq<Attempt>, k: nat, id: nat): nat
    requires k <= |attempts|
  {
    if k == 0 then 0
    else
      MatchesBefore(p, s, attempts, k - 1, id)
      + match attempts[k - 1]
        case Ran(early, acts, _) => Matches(p, Begin(StartOf(p, s, attempts, k - 1), early), acts, id)
        case _ => 0
  }

  lemma {:induction false} ListAcrossAttempts(p: Program, s: State, attempts: seq<Attempt>, k: nat, id: nat)
    requires k <= |attempts| && id in s.cells && s.cells[id].data.Phrases?
    ensures var t, n := StartOf(p, s, attempts, k), MatchesBefore(p, s, attempts, k, id);
            && n <= |s.cells[id].data.texts| && id in t.cells
            && t.cells[id] == s.cells[id].(data := Phrases(s.cells[id].data.texts[n..]))
  {
    hide Run, Matches;
    var texts := s.cells[id].data.texts;
    if k == 0 {
      assert texts[0..] == texts;
    } else {
      var t := StartOf(p, s, attempts, k - 1);
      ListAcrossAttempts(p, s, attempts, k - 1, id);
      if attempts[k - 1].Ran? {
        var b := Begin(t, attempts[k - 1].early);
        ListAfterRun(p, b, attempts[k - 1].acts, id);
        var m, n := MatchesBefore(p, s, attempts, k - 1, id), Matches(p, b, attempts[k - 1].acts, id);
        assert texts[m..][n..] == texts[m + n..];
      }
    }
  }

  // An event of its source that gets as far as a list of strings, with a callback that returns,
  // raises there if and only if the matches accepted since the test was made, in this attempt and
  // all before it, have used up the list.
  lemma ListRaisesIffUsedUp(p: Program, s: State, attempts: seq<Attempt>, k: nat, acts: seq<Act>, c: Choice, j: nat)
    requires k < |attempts| && attempts[k].Ran?
    requires var t := Run(p, Begin(StartOf(p, s, attempts, k), attempts[k].early), acts);
             && t.loop.Running? && t.queue != [] && t.queue[0].Event? && InBlock(t, j)
             && NobodyTakes(t, t.queue[0].source, t.queue[0].line, c, 0, j)
             && t.steps[j].source == t.queue[0].source && (t.steps[j].hasCallback ==> c.step(j).Returns?)
             && t.steps[j].id in s.cells && s.cells[t.steps[j].id].data.Phrases?
    ensures var b := Begin(StartOf(p, s, attempts, k), attempts[k].early);
            var t := Run(p, b, acts);
            var id := t.steps[j].id;
            && (Taker(t, Dispatch(c)) == Just(j) && RaisesAt(t, j, t.queue[0].line, c)
                <==> MatchesBefore(p, s, attempts, k, id) + Matches(p, b, acts, id) == |s.cells[id].data.texts|)
            && (Taker(t, Dispatch(c)) == Just(j) && RaisesAt(t, j, t.queue[0].line, c)
                ==> Next(p, t, Dispatch(c)).loop.Crashed?)
  {
    hide Run, Matches, Next, MatchesBefore, StartOf, Contains;
    var b := Begin(StartOf(p, s, attempts, k), attempts[k].early);
    var t := Run(p, b, acts);
    var id := t.steps[j].id;
    ListAcrossAttempts(p, s, attempts, k, id);
    ListAfterRun(p, b, acts, id);
    NextCells(p, t, Dispatch(c));
    if Takes(t, j, t.queue[0].source, t.queue[0].line, c) {
      TakerIs(t, t.queue[0].source, t.queue[0].line, c, 0, j);
    }
  }

  // ---------- what is reported ----------

  // The attempt at position k leaves the verdict FAIL: a fail entry was dispatched, a device did
  // not open, or the start condition refused a repeat and the verdict stayed.
  predicate FailsIn(p: Program, s: State, attempts: seq<Attempt>, k: nat)
    requires k < |attempts|
  {
    match attempts[k]
    case Skipped => k > 0
    case OpenFailed => true
    case Ran(early, acts, _) => Fail in Dispatched(p, Begin(StartOf(p, s, attempts, k), early), acts)
  }

  lemma AttemptFails(p: Program, s: State, attempts: seq<Attempt>, k: nat)
    requires Startable(s) && s.verdict.NotRun? && AllOrderly(p, s, attempts)
    requires k < |attempts| && FailedUpTo(p, s, attempts, k)
    ensures After(p, s, attempts, k + 1).verdict ==
            if FailsIn(p, s, attempts, k) then Failed
            else if attempts[k].Skipped? then NotRun else Passed
  {
    hide Orderly, Dispatched, Run, PlainWaits;
    RepeatsStartClean(p, s, attempts, k);
    OrderlyAttempt(p, StartOf(p, s, attempts, k), attempts[k]);
  }

  // Without stop(), exceptions and timers left behind, a new test is reported FAIL if and only if
  // every attempt fails, and NOT RUN if and only if the first one is refused.
  lemma RepeatsDecide(p: Program, s: State, attempts: seq<Attempt>)
    requires Startable(s) && s.verdict.NotRun? && AllOrderly(p, s, attempts) && attempts != []
    ensures var v := RunRepeated(p, s, attempts, 0).verdict;
            && (v.Failed? <==> forall k | 0 <= k < |attempts| :: FailsIn(p, s, attempts, k))
            && (v.NotRun? <==> attempts[0].Skipped?)
  {
    hide AllOrderly, RunRepeated, After;
    RepeatsFrom(p, s, attempts, 0) by { StartsAtStart(p, s, attempts); }
    StartsAtStart(p, s, attempts);
    var k: nat :| EndsAfter(p, s, attempts, k) && RunRepeated(p, s, attempts, 0) == After(p, s, attempts, k);
    AttemptFails(p, s, attempts, k - 1);
    if After(p, s, attempts, k).verdict.Failed? {
      forall i | 0 <= i < |attempts|
        ensures FailsIn(p, s, attempts, i)
      {
        AttemptFails(p, s, attempts, i);
        assert After(p, s, attempts, i + 1).verdict.Failed?;
      }
    }
    AttemptFails(p, s, attempts, 0);
  }

  lemma StartsAtStart(p: Program, s: State, attempts: seq<Attempt>)
    ensures After(p, s, attempts, 0) == s
  {}
}
