// Local maxima with a minimum spacing, as found by shifting a padded copy of the data.
module PeakSearch {
  import opened Text

  const EPSILON: real := 0.000001

  // Strictly above every other value within `spacing` positions.
  predicate IsPeak(data: seq<real>, spacing: nat, i: nat)
    requires i < |data|
  {
    forall j | 0 <= j < |data| && j != i && i - spacing <= j <= i + spacing :: data[i] > data[j]
  }

  predicate AboveLimit(data: seq<real>, limit: Option<real>, i: nat)
    requires i < |data|
  {
    limit.Just? ==> data[i] > limit.value
  }

  predicate Ascending(ind: seq<nat>) {
    forall a, b | 0 <= a < b < |ind| :: ind[a] < ind[b]
  }

  lemma AppendAscending(ind: seq<nat>, i: nat)
    requires Ascending(ind) && forall k | k in ind :: k < i
    ensures Ascending(ind + [i])
  {
    forall a, b | 0 <= a < b < |ind + [i]|
      ensures (ind + [i])[a] < (ind + [i])[b]
    {
      assert ind[a] in ind;
    }
  }

  // numpy.argwhere
  function Where(mask: seq<bool>): (ind: seq<nat>)
    ensures Ascending(ind) && forall i: nat :: i in ind <==> i < |mask| && mask[i]
  {
    if mask == [] then []
    else
      var before := Where(mask[..|mask| - 1]);
      AppendAscending(before, |mask| - 1);
      if mask[|mask| - 1] then before + [|mask| - 1] else before
  }

  predicate Within(ind: seq<nat>, n: nat) {
    forall k | 0 <= k < |ind| :: ind[k] < n
  }

  // ind[data[ind] > limit]
  function Exceeding(ind: seq<nat>, data: seq<real>, limit: real): (kept: seq<nat>)
    requires Ascending(ind) && Within(ind, |data|)
    ensures Ascending(kept) && forall i: nat :: i in kept <==> i in ind && data[i] > limit
  {
    if ind == [] then []
    else
      var last := ind[|ind| - 1];
      var before := Exceeding(ind[..|ind| - 1], data, limit);
      assert last in ind;
      assert forall i | i in before :: i in ind[..|ind| - 1];
      AppendAscending(before, last);
      if data[last] > limit then before + [last] else before
  }

  // The padded copy: `spacing` values just below the first value, the data, `spacing` values just
  // below the last one.
  predicate IsPadded(x: seq<real>, data: seq<real>, spacing: nat) {
    && |data| >= 1 && |x| == |data| + 2 * spacing
    && (forall i | 0 <= i < spacing :: x[i] == data[0] - EPSILON)
    && (forall i | 0 <= i < |data| :: x[spacing + i] == data[i])
    && (forall i | spacing + |data| <= i < |x| :: x[i] == data[|data| - 1] - EPSILON)
  }

  // Position i of the data beats both neighbours at distance s in the padded copy.
  predicate BeatsAt(x: seq<real>, spacing: nat, i: nat, s: nat)
    requires s <= spacing && spacing + i + s < |x|
  {
    x[spacing + i] > x[spacing + i - s] && x[spacing + i] > x[spacing + i + s]
  }

  // ... and at each distance up to d.
  predicate Beats(x: seq<real>, spacing: nat, i: nat, d: nat)
    requires d <= spacing && i + 2 * spacing < |x|
  {
    forall s: nat | 0 < s <= d :: BeatsAt(x, spacing, i, s)
  }

  lemma BeatsOneFurther(x: seq<real>, spacing: nat, i: nat, d: nat)
    requires d < spacing && i + 2 * spacing < |x|
    ensures Beats(x, spacing, i, d + 1) <==> Beats(x, spacing, i, d) && BeatsAt(x, spacing, i, d + 1)
  {}

  // The padding never decides: beating the padded neighbours is being a peak of the data.
  lemma PaddingIsTransparent(x: seq<real>, data: seq<real>, spacing: nat, i: nat)
    requires IsPadded(x, data, spacing) && i < |data|
    ensures Beats(x, spacing, i, spacing) <==> IsPeak(data, spacing, i)
  {
    if Beats(x, spacing, i, spacing) {
      forall j | 0 <= j < |data| && j != i && i - spacing <= j <= i + spacing
        ensures data[i] > data[j]
      {
        assert BeatsAt(x, spacing, i, if j < i then i - j else j - i);
        assert x[spacing + j] == data[j] && x[spacing + i] == data[i];
      }
    }
    if IsPeak(data, spacing, i) {
      forall s: nat | 0 < s <= spacing
        ensures BeatsAt(x, spacing, i, s)
      {
        LeftNeighbour(x, data, spacing, i, s);
        RightNeighbour(x, data, spacing, i, s);
      }
    }
  }

  lemma LeftNeighbour(x: seq<real>, data: seq<real>, spacing: nat, i: nat, s: nat)
    requires IsPadded(x, data, spacing) && i < |data| && 0 < s <= spacing && IsPeak(data, spacing, i)
    ensures x[spacing + i] > x[spacing + i - s]
  {
    if s <= i {
      assert x[spacing + (i - s)] == data[i - s];
    } else {
      assert data[i] >= data[0];
    }
  }

  lemma RightNeighbour(x: seq<real>, data: seq<real>, spacing: nat, i: nat, s: nat)
    requires IsPadded(x, data, spacing) && i < |data| && 0 < s <= spacing && IsPeak(data, spacing, i)
    ensures x[spacing + i] > x[spacing + i + s]
  {
    if i + s < |data| {
      assert x[spacing + (i + s)] == data[i + s];
    } else {
      assert data[i] >= data[|data| - 1];
    }
  }

  method Pad(data: array<real>, spacing: nat) returns (x: array<real>)
    requires data.Length >= 1
    ensures fresh(x) && IsPadded(x[..], data[..], spacing)
  {
    var n := data.Length;
    x := new real[n + 2 * spacing](_ => 0.0);
    forall i | 0 <= i < spacing { x[i] := data[0] - EPSILON; }
    // A slice that starts at minus zero is the whole array.
    forall i | (if spacing == 0 then 0 else x.Length - spacing) <= i < x.Length { x[i] := data[n - 1] - EPSILON; }
    forall i | 0 <= i < n { x[spacing + i] := data[i]; }
  }

  method FindPeaks(data: array<real>, spacing: nat, limit: Option<real>) returns (ind: seq<nat>)
    requires data.Length >= 1
    ensures Ascending(ind)
    ensures forall i: nat :: i in ind <==>
      i < data.Length && IsPeak(data[..], spacing, i) && AboveLimit(data[..], limit, i)
  {
    var n := data.Length;
    var x := Pad(data, spacing);
    ghost var xs := x[..];
    var candidate := new bool[n](_ => true);
    for s := 0 to spacing
      invariant x[..] == xs
      invariant forall i | 0 <= i < n :: candidate[i] == Beats(xs, spacing, i, s)
    {
      forall i | 0 <= i < n
        ensures Beats(xs, spacing, i, s + 1) <==> Beats(xs, spacing, i, s) && BeatsAt(xs, spacing, i, s + 1)
      {
        BeatsOneFurther(xs, spacing, i, s);
      }
      forall i | 0 <= i < n {
        candidate[i] := candidate[i]
                        && x[spacing + i] > x[spacing - s - 1 + i] && x[spacing + i] > x[spacing + s + 1 + i];
      }
    }
    forall i | 0 <= i < n
      ensures candidate[i] == IsPeak(data[..], spacing, i)
    {
      PaddingIsTransparent(xs, data[..], spacing, i);
    }
    ind := Where(candidate[..]);
    if limit.Just? {
      assert forall k | 0 <= k < |ind| :: ind[k] in ind;
      ind := Exceeding(ind, data[..], limit.value);
    }
  }

  // ---------- what follows for any such list of peaks ----------

  predicate ArePeaks(ind: seq<nat>, data: seq<real>, spacing: nat) {
    Ascending(ind) && forall i | i in ind :: i < |data| && IsPeak(data, spacing, i)
  }

  lemma TwoPeaksAreApart(data: seq<real>, spacing: nat, i: nat, j: nat)
    requires i < j < |data| && IsPeak(data, spacing, i) && IsPeak(data, spacing, j)
    ensures j - i > spacing
  {
    assert data[i] > data[j] || j - i > spacing;
  }

  lemma PeaksAreApart(ind: seq<nat>, data: seq<real>, spacing: nat, a: nat, b: nat)
    requires ArePeaks(ind, data, spacing) && a < b < |ind|
    ensures ind[b] - ind[a] > spacing
  {
    assert ind[a] in ind && ind[b] in ind;
    TwoPeaksAreApart(data, spacing, ind[a], ind[b]);
  }

  lemma {:induction false} PeaksSpread(ind: seq<nat>, data: seq<real>, spacing: nat, k: nat)
    requires ArePeaks(ind, data, spacing) && k < |ind|
    ensures ind[k] >= k * (spacing + 1)
  {
    if k > 0 {
      PeaksSpread(ind, data, spacing, k - 1);
      PeaksAreApart(ind, data, spacing, k - 1, k);
    }
  }

  // So many peaks need so much data.
  lemma PeakCount(ind: seq<nat>, data: seq<real>, spacing: nat)
    requires ArePeaks(ind, data, spacing) && ind != []
    ensures (|ind| - 1) * (spacing + 1) + 1 <= |data|
  {
    PeaksSpread(ind, data, spacing, |ind| - 1);
    assert ind[|ind| - 1] in ind;
  }

  // A unique maximum above the limit is always found.
  lemma UniqueMaximumIsFound(ind: seq<nat>, data: seq<real>, spacing: nat, limit: Option<real>, top: nat)
    requires forall i: nat :: i in ind <==> i < |data| && IsPeak(data, spacing, i) && AboveLimit(data, limit, i)
    requires top < |data| && (forall j | 0 <= j < |data| && j != top :: data[j] < data[top])
    requires AboveLimit(data, limit, top)
    ensures top in ind
  {}
}
