// The test runner: which tests of a group run, how often, and how they are reported.
module TestRunners {
  import opened Text
  import opened TestModel
  import opened TestRepeats
  import opened TestCases

  // ---------- tags ----------

  // _check_tags_to_run_test, for the tags to include, the tags to exclude and the tags of a test.
  predicate CheckTags(it: seq<string>, et: seq<string>, tt: seq<string>) {
    if tt == [] then true
    else
      var included := it == [] || exists i | i in it && i !in et :: i in tt;
      included && !exists e | e in et :: e in tt
  }

  // Taking the exclude tags out of the include tags makes no difference.
  lemma CheckTagsMeaning(it: seq<string>, et: seq<string>, tt: seq<string>)
    ensures CheckTags(it, et, tt) <==>
            tt == [] || ((it == [] || exists i | i in it :: i in tt) && forall e | e in et :: e !in tt)
  {
    if tt != [] && (forall e | e in et :: e !in tt) && exists i | i in it :: i in tt {
      var i :| i in it && i in tt;
      assert i !in et;
    }
  }

  // What decides whether a test of a group runs: the tag options of the runner, the tags of the
  // group, and str.lower().
  datatype Selection = Selection(it: seq<string>, et: seq<string>, groupTags: seq<string>, lower: string -> string)

  // The lower-cased tags of a test and its group; only membership matters.
  function TestTags(sel: Selection, t: TestCase): seq<string> {
    var all := t.tags + sel.groupTags;
    seq(|all|, i requires 0 <= i < |all| => sel.lower(all[i]))
  }

  predicate Wanted(sel: Selection, t: TestCase) {
    CheckTags(sel.it, sel.et, TestTags(sel, t))
  }

  // The rule for a test that has these tags, with those of its group: one of them is to be included,
  // unless no tags are given for that, and none is to be excluded. Case does not matter.
  predicate TagsAdmit(it: seq<string>, et: seq<string>, lower: string -> string, own: seq<string>) {
    own == [] || ((it == [] || exists x | x in own :: lower(x) in it) && forall x | x in own :: lower(x) !in et)
  }

  lemma WantedIff(sel: Selection, t: TestCase)
    ensures Wanted(sel, t) <==> TagsAdmit(sel.it, sel.et, sel.lower, t.tags + sel.groupTags)
  {
    var own, tt := t.tags + sel.groupTags, TestTags(sel, t);
    CheckTagsMeaning(sel.it, sel.et, tt);
    hide CheckTags;
    assert forall i | 0 <= i < |own| :: tt[i] == sel.lower(own[i]);
    assert forall x | x in own :: sel.lower(x) in tt;
    assert forall y | y in tt :: exists x | x in own :: y == sel.lower(x);
  }

  // ---------- removing by index ----------

  function Filter(xs: seq<TestCase>, sel: Selection): seq<TestCase> {
    if xs == [] then []
    else
      var before := Filter(xs[..|xs| - 1], sel);
      if Wanted(sel, xs[|xs| - 1]) then before + [xs[|xs| - 1]] else before
  }

  // A filter: it works on each test by itself and keeps the order.
  lemma FilterOne(t: TestCase, sel: Selection)
    ensures Filter([], sel) == []
    ensures Filter([t], sel) == if TagsAdmit(sel.it, sel.et, sel.lower, t.tags + sel.groupTags) then [t] else []
  {
    hide Wanted, TagsAdmit;
    WantedIff(sel, t);
    assert [t][..0] == [];
  }

  lemma {:induction false} FilterBoth(a: seq<TestCase>, b: seq<TestCase>, sel: Selection)
    ensures Filter(a + b, sel) == Filter(a, sel) + Filter(b, sel)
    decreases |b|
  {
    hide Wanted;
    if b == [] {
      assert a + b == a;
    } else {
      FilterBoth(a, b[..|b| - 1], sel);
      assert (a + b)[..|a + b| - 1] == a + b[..|b| - 1];
    }
  }

  lemma {:induction false} FilterMembers(xs: seq<TestCase>, sel: Selection)
    ensures forall t | t in xs :: t in Filter(xs, sel) <==> Wanted(sel, t)
    ensures forall i | 0 <= i < |Filter(xs, sel)| :: Filter(xs, sel)[i] in xs
  {
    hide Wanted;
    if xs != [] {
      FilterMembers(xs[..|xs| - 1], sel);
    }
  }

  // The positions below n that are to be removed, largest first.
  function Rejected(xs: seq<TestCase>, sel: Selection, n: nat): seq<nat>
    requires n <= |xs|
  {
    if n == 0 then []
    else if Wanted(sel, xs[n - 1]) then Rejected(xs, sel, n - 1)
    else [n - 1] + Rejected(xs, sel, n - 1)
  }

  function PopAt(xs: seq<TestCase>, i: nat): seq<TestCase>
    requires i < |xs|
  {
    xs[..i] + xs[i + 1..]
  }

  // Popping the rejected positions one after the other, largest first, is a filter; no position
  // has shifted by the time it is popped.
  lemma {:induction false} PopIsFilter(xs: seq<TestCase>, sel: Selection, n: nat, tail: seq<TestCase>)
    requires n <= |xs|
    ensures PopsTo(xs[..n] + tail, Rejected(xs, sel, n), Filter(xs[..n], sel) + tail)
  {
    hide Wanted, PopsTo, PopAt, Filter;
    if n == 0 {
      NothingPopped(tail, sel);
    } else {
      FilterLast(xs, sel, n);
      if Wanted(sel, xs[n - 1]) {
        PopIsFilter(xs, sel, n - 1, [xs[n - 1]] + tail);
        ConcatAssoc(xs[..n - 1], [xs[n - 1]], tail);
        ConcatAssoc(Filter(xs[..n - 1], sel), [xs[n - 1]], tail);
      } else {
        PopIsFilter(xs, sel, n - 1, tail);
        PopLast(xs, n, tail, Rejected(xs, sel, n - 1), Filter(xs[..n - 1], sel) + tail);
      }
    }
  }

  lemma NothingPopped(tail: seq<TestCase>, sel: Selection)
    ensures PopsTo([] + tail, [], Filter([], sel) + tail)
  {
    assert [] + tail == tail;
  }

  lemma FilterLast(xs: seq<TestCase>, sel: Selection, n: nat)
    requires 0 < n <= |xs|
    ensures xs[..n] == xs[..n - 1] + [xs[n - 1]]
    ensures Filter(xs[..n], sel) ==
            if Wanted(sel, xs[n - 1]) then Filter(xs[..n - 1], sel) + [xs[n - 1]] else Filter(xs[..n - 1], sel)
  {
    hide Wanted;
    assert xs[..n][..n - 1] == xs[..n - 1];
  }

  lemma PopLast(xs: seq<TestCase>, n: nat, tail: seq<TestCase>, positions: seq<nat>, result: seq<TestCase>)
    requires 0 < n <= |xs| && PopsTo(xs[..n - 1] + tail, positions, result)
    ensures PopsTo(xs[..n] + tail, [n - 1] + positions, result)
  {
    assert PopAt(xs[..n] + tail, n - 1) == xs[..n - 1] + tail;
    assert ([n - 1] + positions)[1..] == positions;
  }

  lemma PopAllIsFilter(xs: seq<TestCase>, sel: Selection)
    ensures PopsTo(xs, Rejected(xs, sel, |xs|), Filter(xs, sel))
  {
    hide Wanted, PopsTo;
    PopIsFilter(xs, sel, |xs|, []);
    assert xs[..|xs|] + [] == xs && xs[..|xs|] == xs && Filter(xs, sel) + [] == Filter(xs, sel);
  }

  // Popping these positions in this order is possible and leads to that list.
  predicate PopsTo(xs: seq<TestCase>, positions: seq<nat>, result: seq<TestCase>)
    decreases |positions|
  {
    if positions == [] then xs == result
    else positions[0] < |xs| && PopsTo(PopAt(xs, positions[0]), positions[1..], result)
  }

  // ---------- reports ----------

  function ByVerdict(tests: seq<TestCase>, v: Verdict): seq<TestCase>
    reads tests
  {
    if tests == [] then []
    else
      var before := ByVerdict(tests[..|tests| - 1], v);
      if tests[|tests| - 1].verdict == v then before + [tests[|tests| - 1]] else before
  }

  // Every test is in exactly one of the three lists, as often as in the group.
  lemma {:induction false} ReportPartitions(tests: seq<TestCase>)
    ensures multiset(ByVerdict(tests, Passed)) + multiset(ByVerdict(tests, Failed)) + multiset(ByVerdict(tests, NotRun))
         == multiset(tests)
  {
    if tests != [] {
      var before, last := tests[..|tests| - 1], tests[|tests| - 1];
      ReportPartitions(before);
      assert tests == before + [last];
      match last.verdict {
        case Passed => assert ByVerdict(tests, Passed) == ByVerdict(before, Passed) + [last];
        case Failed => assert ByVerdict(tests, Failed) == ByVerdict(before, Failed) + [last];
        case NotRun => assert ByVerdict(tests, NotRun) == ByVerdict(before, NotRun) + [last];
      }
    }
  }

  lemma {:induction false} ReportedByVerdict(tests: seq<TestCase>, v: Verdict)
    ensures forall t :: t in ByVerdict(tests, v) <==> t in tests && t.verdict == v
  {
    if tests != [] {
      ReportedByVerdict(tests[..|tests| - 1], v);
    }
  }

  // Each list keeps the order of the group.
  lemma {:induction false} ReportKeepsOrder(a: seq<TestCase>, b: seq<TestCase>, v: Verdict)
    ensures ByVerdict(a + b, v) == ByVerdict(a, v) + ByVerdict(b, v)
    decreases |b|
  {
    if b == [] {
      assert a + b == a;
    } else {
      ReportKeepsOrder(a, b[..|b| - 1], v);
      assert (a + b)[..|a + b| - 1] == a + b[..|b| - 1];
    }
  }

  // ---------- the group ----------

  class TestGroup {
    const tags: seq<string>
    const devicesPresent: bool
    var tests: seq<TestCase>

    constructor (name: string, tags: seq<string>, devicesPresent: bool, tests: seq<TestCase>)
      ensures this.tags == [name] + tags && this.devicesPresent == devicesPresent && this.tests == tests
    {
      this.tags := [name] + tags;
      this.devicesPresent := devicesPresent;
      this.tests := tests;
    }

    // group.tests.pop(i) for each position in turn
    method PopAll(positions: seq<nat>, ghost result: seq<TestCase>)
      requires PopsTo(tests, positions, result)
      modifies this
      ensures tests == result
    {
      var i := 0;
      while i < |positions|
        invariant 0 <= i <= |positions| && PopsTo(tests, positions[i..], result)
      {
        assert positions[i..][1..] == positions[i + 1..];
        tests := PopAt(tests, positions[i]);
        i := i + 1;
      }
    }

    function Chosen(it: seq<string>, et: seq<string>, lower: string -> string): Selection {
      Selection(it, et, tags, lower)
    }

    // Runs the wanted tests and notes the positions of the others, largest first.
    method RunWanted(sel: Selection, repeatCount: Option<int>, plan: seq<seq<Attempt>>) returns (toRemove: seq<nat>)
      requires |plan| == |tests| && forall i | 0 <= i < |plan| :: |plan[i]| == RunCount(repeatCount)
      requires forall i, j | 0 <= i < j < |tests| :: tests[i] != tests[j]
      requires forall i | 0 <= i < |tests| :: LegalFrom(tests[i].program, tests[i].View(), plan[i], 0)
      modifies tests
      ensures toRemove == Rejected(tests, sel, |tests|)
      ensures forall i | 0 <= i < |tests| ::
        tests[i].View() == if TagsAdmit(sel.it, sel.et, sel.lower, tests[i].tags + sel.groupTags)
                           then RunRepeated(tests[i].program, old(tests[i].View()), plan[i], 0)
                           else old(tests[i].View())
    {
      hide RunRepeated, LegalFrom, Wanted, TagsAdmit, TestCase.View;
      toRemove := [];
      var idx := 0;
      while idx < |tests|
        invariant 0 <= idx <= |tests|
        invariant toRemove == Rejected(tests, sel, idx)
        invariant forall i | 0 <= i < |tests| ::
          tests[i].View() == if i < idx && Wanted(sel, tests[i])
                             then RunRepeated(tests[i].program, old(tests[i].View()), plan[i], 0)
                             else old(tests[i].View())
      {
        if Wanted(sel, tests[idx]) {
          var runCount := RunCount(repeatCount);
          tests[idx].RunRepeated(runCount, plan[idx]);
        } else {
          toRemove := [idx] + toRemove;
        }
        idx := idx + 1;
      }
      forall i | 0 <= i < |tests|
        ensures Wanted(sel, tests[i]) <==> TagsAdmit(sel.it, sel.et, sel.lower, tests[i].tags + sel.groupTags)
      {
        WantedIff(sel, tests[i]);
      }
    }

    // The part of TestRunner.run for one group. plan[idx] says how the attempts at the test at
    // position idx go, if it is selected and as far as they are made.
    method Run(it: seq<string>, et: seq<string>, lower: string -> string, repeatCount: Option<int>,
               plan: seq<seq<Attempt>>)
      requires |plan| == |tests| && forall i | 0 <= i < |plan| :: |plan[i]| == RunCount(repeatCount)
      requires forall i, j | 0 <= i < j < |tests| :: tests[i] != tests[j]
      requires forall i | 0 <= i < |tests| :: LegalFrom(tests[i].program, tests[i].View(), plan[i], 0)
      modifies this, tests
      ensures tests == if devicesPresent then Filter(old(tests), Chosen(it, et, lower)) else old(tests)
      ensures forall t | t in old(tests) ::
        t in tests <==> (devicesPresent ==> TagsAdmit(it, et, lower, t.tags + tags))
      ensures forall i | 0 <= i < |tests| :: tests[i] in old(tests)
      ensures forall i | 0 <= i < |old(tests)| ::
        var t := old(tests)[i];
        t.View() == if devicesPresent && TagsAdmit(it, et, lower, t.tags + tags)
                    then RunRepeated(t.program, old(tests[i].View()), plan[i], 0)
                    else old(tests[i].View())
    {
      hide RunRepeated, LegalFrom, Wanted, PopsTo, TagsAdmit, Filter, TestCase.View;
      if devicesPresent {
        var sel := Chosen(it, et, lower);
        var toRemove := RunWanted(sel, repeatCount, plan);
        PopAllIsFilter(tests, sel);
        FilterMembers(tests, sel);
        forall t | t in tests
          ensures Wanted(sel, t) <==> TagsAdmit(it, et, lower, t.tags + tags)
        {
          WantedIff(sel, t);
        }
        PopAll(toRemove, Filter(tests, sel));
      }
    }

    // __print_test_group_results
    method Report() returns (passed: seq<TestCase>, failed: seq<TestCase>, notRun: seq<TestCase>)
      ensures passed == ByVerdict(tests, Passed)
      ensures failed == ByVerdict(tests, Failed)
      ensures notRun == ByVerdict(tests, NotRun)
    {
      passed, failed, notRun := [], [], [];
      var i := 0;
      while i < |tests|
        invariant 0 <= i <= |tests|
        invariant passed == ByVerdict(tests[..i], Passed)
        invariant failed == ByVerdict(tests[..i], Failed)
        invariant notRun == ByVerdict(tests[..i], NotRun)
      {
        assert tests[..i + 1][..i] == tests[..i];
        var test := tests[i];
        if test.verdict == Passed {
          passed := passed + [test];
        } else if test.verdict == Failed {
          failed := failed + [test];
        } else {
          notRun := notRun + [test];
        }
        i := i + 1;
      }
      assert tests[..|tests|] == tests;
    }
  }
}
