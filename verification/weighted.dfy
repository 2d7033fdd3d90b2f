/**
  Weighted categorical choice.

  Both `random.choices(population, weights)` and `np.random.choice(a, p=...)`
  build the running sums of the weights, scale a uniform draw to the total and
  return the first position whose running sum is strictly greater than the
  scaled draw (a right bisection). With integer weights the scaled draw can be
  replaced by its integer part `x` in [0, total) without changing the answer,
  so the choice is modelled exactly on natural numbers. numpy's probability
  vectors are written as permille weights that sum to 1000.
 */
module Weighted {
  import opened Draws

  function Sum(w: seq<nat>): nat
  {
    if |w| == 0 then 0 else w[0] + Sum(w[1..])
  }

  /** A numpy probability vector, in permille. */
  predicate IsDistribution(w: seq<nat>)
  {
    Sum(w) == 1000
  }

  lemma {:induction false} SumAppend(a: seq<nat>, b: seq<nat>)
    ensures Sum(a + b) == Sum(a) + Sum(b)
    decreases |a|
  {
    if |a| == 0 {
      assert a + b == b;
    } else {
      assert (a + b)[1..] == a[1..] + b;
      SumAppend(a[1..], b);
    }
  }

  /** The running sum grows by exactly the next weight. */
  lemma PrefixStep(w: seq<nat>, i: nat)
    requires i < |w|
    ensures Sum(w[..i + 1]) == Sum(w[..i]) + w[i]
  {
    assert w[..i + 1] == w[..i] + [w[i]];
    SumAppend(w[..i], [w[i]]);
    assert [w[i]][1..] == [];
  }

  /** Running sums are monotone in the prefix length. */
  lemma {:induction false} PrefixMonotone(w: seq<nat>, i: nat, j: nat)
    requires i <= j <= |w|
    ensures Sum(w[..i]) <= Sum(w[..j])
    decreases j - i
  {
    if i < j {
      PrefixStep(w, j - 1);
      PrefixMonotone(w, i, j - 1);
    }
  }

  /**
    The position a scaled draw `x` selects: the first index whose running sum
    exceeds `x`. It always has a positive weight, so a zero-weight entry is
    never selected.
   */
  function Pick(w: seq<nat>, x: nat): (i: nat)
    requires x < Sum(w)
    ensures i < |w|
    ensures w[i] > 0
    ensures Sum(w[..i]) <= x < Sum(w[..i]) + w[i]
    decreases |w|
  {
    if x < w[0] then
      assert w[..0] == [];
      0
    else
      var j := Pick(w[1..], x - w[0]);
      assert w[..j + 1] == [w[0]] + w[1..][..j];
      assert ([w[0]] + w[1..][..j])[1..] == w[1..][..j];
      1 + j
  }

  /** The selection bracket determines the position: `Pick` returns the only
      index whose running-sum interval contains the draw. */
  lemma PickUnique(w: seq<nat>, x: nat, j: nat)
    requires j < |w|
    requires Sum(w[..j]) <= x < Sum(w[..j]) + w[j]
    ensures x < Sum(w)
    ensures Pick(w, x) == j
  {
    PrefixStep(w, j);
    PrefixMonotone(w, j + 1, |w|);
    assert w[..|w|] == w;
    var i := Pick(w, x);
    if i < j {
      PrefixStep(w, i);
      PrefixMonotone(w, i + 1, j);
    } else if j < i {
      PrefixMonotone(w, j + 1, i);
    }
  }

  /** The value chosen by a raw draw `d` from `values` weighted by `w`. */
  function Choose<T>(values: seq<T>, w: seq<nat>, d: nat): (v: T)
    requires |values| == |w| && Sum(w) > 0
    ensures exists i :: 0 <= i < |w| && w[i] > 0 && values[i] == v
  {
    var i := Pick(w, d % Sum(w));
    assert values[i] == values[i];
    values[i]
  }

  /** An entry of weight 0 whose value occurs nowhere else is never chosen. */
  lemma ZeroWeightNeverChosen<T>(values: seq<T>, w: seq<nat>, d: nat, j: nat)
    requires |values| == |w| && Sum(w) > 0
    requires j < |w| && w[j] == 0
    requires forall i :: 0 <= i < |values| && i != j ==> values[i] != values[j]
    ensures Choose(values, w, d) != values[j]
  {
  }

  /** Every value of positive weight is chosen by some draw. */
  lemma PositiveWeightReachable<T>(values: seq<T>, w: seq<nat>, j: nat)
    requires |values| == |w|
    requires j < |w| && w[j] > 0
    ensures Sum(w) > 0
    ensures Choose(values, w, Sum(w[..j])) == values[j]
  {
    var x, total := Sum(w[..j]), Sum(w);
    PickUnique(w, x, j);
    SmallMod(x, total);
  }

  lemma SmallMod(x: nat, m: nat)
    requires x < m
    ensures x % m == x
  {
  }

  /** The choice taken from position p of a stream. */
  function ChooseAt<T>(s: Stream, p: nat, values: seq<T>, w: seq<nat>): (v: T)
    requires |values| == |w| && Sum(w) > 0
    ensures exists i :: 0 <= i < |w| && w[i] > 0 && values[i] == v
  {
    Choose(values, w, s(p))
  }
}
