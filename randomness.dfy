/**
 * Python's `random` module as an input: a stream of the values successive
 * calls to `random.random()` return, each in [0, 1).
 */
module Randomness {

  class Random {
    const draws: nat -> real
    var index: nat

    ghost predicate Valid()
    {
      forall n: nat :: 0.0 <= draws(n) < 1.0
    }

    constructor (draws: nat -> real)
      requires forall n: nat :: 0.0 <= draws(n) < 1.0
      ensures Valid() && this.draws == draws && index == 0
    {
      this.draws := draws;
      index := 0;
    }

    /** `random.random()`. */
    method Next() returns (u: real)
      requires Valid()
      modifies this
      ensures index == old(index) + 1
      ensures u == draws(old(index)) && 0.0 <= u < 1.0
    {
      u := draws(index);
      index := index + 1;
    }

    /** `random.uniform(lo, hi)`, which is `lo + (hi - lo) * random()`. */
    method Uniform(lo: real, hi: real) returns (r: real)
      requires Valid() && lo <= hi
      modifies this
      ensures index == old(index) + 1
      ensures r == lo + (hi - lo) * draws(old(index))
      ensures lo <= r <= hi
    {
      var u := Next();
      var w := hi - lo;
      ScaledUnitInterval(w, u);
      r := lo + w * u;
    }

    /** `random.choice(options)`: one of the options, chosen by one draw. */
    method Choice<T>(options: seq<T>) returns (x: T)
      requires Valid() && |options| > 0
      modifies this
      ensures index == old(index) + 1
      ensures x == options[ChoiceIndex(draws(old(index)), |options|)]
    {
      var u := Next();
      x := options[ChoiceIndex(u, |options|)];
    }
  }

  /** The index `floor(u * n)` that a draw u in [0, 1) selects among n options. */
  function ChoiceIndex(u: real, n: nat): (i: nat)
    requires 0.0 <= u < 1.0 && n > 0
    ensures i < n
  {
    ScaledUnitInterval(n as real, u);
    assert u * (n as real) < n as real by { StrictScale(n as real, u); }
    (u * (n as real)).Floor
  }

  lemma ScaledUnitInterval(w: real, u: real)
    requires 0.0 <= w && 0.0 <= u < 1.0
    ensures 0.0 <= w * u <= w
  {
    assert w - w * u == w * (1.0 - u);
  }

  lemma StrictScale(w: real, u: real)
    requires 0.0 < w && 0.0 <= u < 1.0
    ensures u * w < w
  {
    assert w - u * w == w * (1.0 - u);
  }
}
