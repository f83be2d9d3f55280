/**
 * Countdown timers: shot and power-up lifetimes and the bomb fuse all lose
 * the frame's dt on every update and act once they reach 0 or less.
 */
module Timers {

  /** Total time of a run of updates with steps dts. */
  function Sum(dts: seq<real>): real
  {
    if |dts| == 0 then 0.0 else Sum(dts[..|dts| - 1]) + dts[|dts| - 1]
  }

  /**
   * Whether a timer started at t, lowered by each step of dts in turn,
   * reads 0 or less after one of the updates.
   */
  predicate Lapses(t: real, dts: seq<real>)
    decreases |dts|
  {
    |dts| > 0 && (t - dts[0] <= 0.0 || Lapses(t - dts[0], dts[1..]))
  }

  /** A timer lapses exactly when the steps so far add up to its start value. */
  lemma {:induction false} LapsesIffElapsed(t: real, dts: seq<real>)
    ensures Lapses(t, dts) <==> exists k :: 0 < k <= |dts| && Sum(dts[..k]) >= t
    decreases |dts|
  {
    if |dts| > 0 {
      var t' := t - dts[0];
      LapsesIffElapsed(t', dts[1..]);
      forall k | 0 < k <= |dts|
        ensures Sum(dts[..k]) == dts[0] + Sum(dts[1..][..k - 1])
      {
        SumFirst(dts[..k]);
        assert dts[..k][1..] == dts[1..][..k - 1];
      }
      if Lapses(t, dts) {
        if t' > 0.0 {
          var k :| 0 < k <= |dts[1..]| && Sum(dts[1..][..k]) >= t';
          assert Sum(dts[..k + 1]) >= t;
        } else {
          assert Sum(dts[..1]) >= t;
        }
      } else {
        forall k | 0 < k <= |dts|
          ensures Sum(dts[..k]) < t
        {
          if k > 1 {
            assert Sum(dts[1..][..k - 1]) < t';
          }
        }
      }
    }
  }

  /** Summing from the back, as `Sum` does, equals peeling off the first step. */
  lemma {:induction false} SumFirst(dts: seq<real>)
    requires |dts| > 0
    ensures Sum(dts) == dts[0] + Sum(dts[1..])
  {
    if |dts| > 1 {
      var init := dts[..|dts| - 1];
      SumFirst(init);
      assert init[1..] == dts[1..][..|dts[1..]| - 1];
    }
  }

  /** A countdown that is lowered only while positive, after one update. */
  function CooledDown(timer: real, dt: real): real
  {
    if timer > 0.0 then timer - dt else timer
  }

  /** The same countdown after a run of updates with steps dts. */
  function CooledDownAll(timer: real, dts: seq<real>): real
    decreases |dts|
  {
    if |dts| == 0 then timer else CooledDownAll(CooledDown(timer, dts[0]), dts[1..])
  }

  /** Once spent (0 or less), such a countdown stays where it is. */
  lemma {:induction false} CooldownSettles(timer: real, dts: seq<real>)
    requires timer <= 0.0
    ensures CooledDownAll(timer, dts) == timer
    decreases |dts|
  {
    if |dts| > 0 {
      CooldownSettles(CooledDown(timer, dts[0]), dts[1..]);
    }
  }

  /** With non-negative steps such a countdown never rises. */
  lemma {:induction false} CooldownNeverRises(timer: real, dts: seq<real>)
    requires forall k :: 0 <= k < |dts| ==> 0.0 <= dts[k]
    ensures CooledDownAll(timer, dts) <= timer
    decreases |dts|
  {
    if |dts| > 0 {
      CooldownNeverRises(CooledDown(timer, dts[0]), dts[1..]);
    }
  }

  /**
   * With non-negative steps such a countdown reaches 0 or less as soon as the
   * steps add up to its start value.
   */
  lemma {:induction false} CooldownRunsOut(timer: real, dts: seq<real>)
    requires forall k :: 0 <= k < |dts| ==> 0.0 <= dts[k]
    requires Sum(dts) >= timer
    ensures CooledDownAll(timer, dts) <= 0.0
    decreases |dts|
  {
    if |dts| > 0 {
      SumFirst(dts);
      if timer > 0.0 {
        CooldownRunsOut(timer - dts[0], dts[1..]);
      } else {
        CooldownSettles(timer, dts);
      }
    }
  }
}
