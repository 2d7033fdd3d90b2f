/**
  Explicit random draws.

  The generator scripts draw from process-wide seeded sources (numpy and
  Python's `random`). Here every draw is taken from an explicit stream of
  natural numbers, indexed by position, that the caller owns and threads
  through every sampling call. A function that samples takes the stream and
  the position of its first draw, and reports the position after its last
  draw, so two calls given the same stream and position see identical draws.
 */
module Draws {

  /** An infinite stream of raw draws; `s(p)` is the p-th draw. */
  type Stream = nat -> nat

  /** A uniform draw in [0, 1), as returned by `np.random.rand()` or `random.random()`. */
  type Unit = r: real | 0.0 <= r < 1.0 witness 0.0

  datatype Option<T> = None | Some(value: T)

  /** A sampled value together with the position of the next unused draw. */
  datatype Drawn<T> = Drawn(value: T, next: nat)

  /** Resolution of unit draws: a raw draw is read modulo this many steps. */
  const UnitSteps: nat := 1_000_000

  /** `np.random.rand()` / `random.random()` taken from draw p. */
  function UnitAt(s: Stream, p: nat): (u: Unit)
    ensures u * (UnitSteps as real) == (s(p) % UnitSteps) as real
  {
    (s(p) % UnitSteps) as real / UnitSteps as real
  }

  /** `np.random.randint(lo, hi)`: a draw in the half-open range [lo, hi). */
  function IntAt(s: Stream, p: nat, lo: int, hi: int): (k: int)
    requires lo < hi
    ensures lo <= k < hi
  {
    lo + s(p) % (hi - lo)
  }

  /** `random.randint(lo, hi)`: a draw in the closed range [lo, hi]. */
  function IntInclAt(s: Stream, p: nat, lo: int, hi: int): (k: int)
    requires lo <= hi
    ensures lo <= k <= hi
  {
    IntAt(s, p, lo, hi + 1)
  }

  /** Every value of a randint range is produced by some stream, so the
      reduction of raw draws into the range loses no outcome. */
  lemma IntAtReachesEveryValue(lo: int, hi: int, k: int)
    requires lo <= k < hi
    ensures IntAt((_ => (k - lo) as nat), 0, lo, hi) == k
  {
    var s: Stream := _ => (k - lo) as nat;
    assert s(0) == k - lo;
    assert (k - lo) % (hi - lo) == k - lo;
  }
}
