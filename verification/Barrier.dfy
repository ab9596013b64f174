// Reorderings of a step list that respect its action steps.
module Barrier {
  import opened TestModel

  predicate IsAction(x: Step) {
    !x.action.WaitFor?
  }

  predicate AllWaits(xs: seq<Step>) {
    forall x | x in xs :: x.action.WaitFor?
  }

  // `a` is `b` with steps permuted inside the maximal runs of WAIT_FOR steps and nowhere else:
  // every action step stands at its own place, with the same steps before it.
  ghost predicate Reorders(a: seq<Step>, b: seq<Step>) {
    && |a| == |b|
    && multiset(a) == multiset(b)
    && forall k | 0 <= k < |a| && (IsAction(a[k]) || IsAction(b[k])) ::
         a[k] == b[k] && multiset(a[..k]) == multiset(b[..k])
  }

  // The steps that do something: writes, and executes that have a callback.
  predicate Runs(x: Step) {
    x.action.Write? || (x.action.Execute? && x.hasCallback)
  }

  function Runnable(xs: seq<Step>): seq<Step> {
    if xs == [] then []
    else
      var before := Runnable(xs[..|xs| - 1]);
      if Runs(xs[|xs| - 1]) then before + [xs[|xs| - 1]] else before
  }

  lemma ReorderRefl(a: seq<Step>)
    ensures Reorders(a, a)
  {}

  // The list with one step of `rest` taken to its front.
  function Pulled(done: seq<Step>, rest: seq<Step>, j: nat): seq<Step>
    requires j < |rest|
  {
    (done + [rest[j]]) + (rest[..j] + rest[j + 1..])
  }

  // Moving one step to the front of a run of waits keeps the relation.
  lemma PullForward(done: seq<Step>, rest: seq<Step>, j: nat, b: seq<Step>)
    requires j < |rest| && (j == 0 || AllWaits(rest[..j + 1]))
    requires Reorders(done + rest, b)
    ensures Reorders((done + [rest[j]]) + (rest[..j] + rest[j + 1..]), b)
  {
    hide AllWaits, ApartFromWaits, Reorders;
    var a, c, last := done + rest, Pulled(done, rest, j), |done| + j;
    PulledContent(done, rest, j);
    if j == 0 {
      PulledFirst(done, rest);
    } else {
      forall k | 0 <= k < |a|
        ensures ApartFromWaits(a, c, |done|, last, k)
      {
        PullForwardAt(done, rest, j, k);
      }
      ReordersApartFromWaits(a, c, b, |done|, last);
    }
  }

  lemma PulledContent(done: seq<Step>, rest: seq<Step>, j: nat)
    requires j < |rest|
    ensures |Pulled(done, rest, j)| == |done + rest|
    ensures multiset(Pulled(done, rest, j)) == multiset(done + rest)
  {
    assert rest == rest[..j] + [rest[j]] + rest[j + 1..];
    SameContent(done, rest[..j], rest[j], rest[j + 1..]);
  }

  lemma PulledFirst(done: seq<Step>, rest: seq<Step>)
    requires rest != []
    ensures Pulled(done, rest, 0) == done + rest
  {}

  // Position k holds a wait in both lists, if it lies in the range, or the same after the same.
  ghost predicate ApartFromWaits(a: seq<Step>, c: seq<Step>, first: nat, last: nat, k: nat)
    requires k < |a| == |c|
  {
    if first <= k <= last then !IsAction(a[k]) && !IsAction(c[k])
    else c[k] == a[k] && multiset(c[..k]) == multiset(a[..k])
  }

  lemma ReordersApartFromWaits(a: seq<Step>, c: seq<Step>, b: seq<Step>, first: nat, last: nat)
    requires |a| == |c| && multiset(c) == multiset(a) && Reorders(a, b)
    requires forall k | 0 <= k < |a| :: ApartFromWaits(a, c, first, last, k)
    ensures Reorders(c, b)
  {
    forall k | 0 <= k < |c| && (IsAction(c[k]) || IsAction(b[k]))
      ensures c[k] == b[k] && multiset(c[..k]) == multiset(b[..k])
    {
      assert ApartFromWaits(a, c, first, last, k);
    }
  }

  lemma PullForwardAt(done: seq<Step>, rest: seq<Step>, j: nat, k: nat)
    requires j < |rest| && AllWaits(rest[..j + 1]) && k < |done| + |rest|
    ensures |Pulled(done, rest, j)| == |done + rest|
    ensures ApartFromWaits(done + rest, Pulled(done, rest, j), |done|, |done| + j, k)
  {
    var a, c := done + rest, Pulled(done, rest, j);
    if |done| <= k <= |done| + j {
      assert a[k] == rest[..j + 1][k - |done|];
      assert rest[j] == rest[..j + 1][j];
      if k > |done| {
        assert c[k] == rest[..j + 1][k - |done| - 1];
      }
    } else if k < |done| {
      assert c[..k] == a[..k];
    } else {
      PullForwardBehind(done, rest, j, k);
    }
  }

  lemma PullForwardBehind(done: seq<Step>, rest: seq<Step>, j: nat, k: nat)
    requires j < |rest| && |done| + j < k < |done| + |rest|
    ensures var a, c := done + rest, Pulled(done, rest, j);
            |c| == |a| && c[k] == a[k] && multiset(c[..k]) == multiset(a[..k])
  {
    var a: seq<Step>, c: seq<Step> := done + rest, Pulled(done, rest, j);
    var tail := rest[j + 1..k - |done|];
    assert multiset(c[..k]) == multiset(a[..k]) by {
      assert a[..k] == done + (rest[..j] + [rest[j]] + tail);
      assert c[..k] == (done + [rest[j]]) + (rest[..j] + tail);
      SameContent(done, rest[..j], rest[j], tail);
    }
  }

  lemma SameContent(a: seq<Step>, b: seq<Step>, x: Step, c: seq<Step>)
    ensures multiset((a + [x]) + (b + c)) == multiset(a + (b + [x] + c))
  {}

  // Action steps are never reordered among themselves.
  lemma {:induction false} ReordersRunnable(a: seq<Step>, b: seq<Step>)
    requires |a| == |b|
    requires forall k | 0 <= k < |a| && (IsAction(a[k]) || IsAction(b[k])) :: a[k] == b[k]
    ensures Runnable(a) == Runnable(b)
  {
    if a != [] {
      ReordersRunnable(a[..|a| - 1], b[..|b| - 1]);
    }
  }
}
