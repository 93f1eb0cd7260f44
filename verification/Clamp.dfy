/**
 GREATEST(0, stored + delta), applied delta after delta: what clamping at zero does to a running
 figure when deltas arrive in any order.
 */
module Clamp {
  import opened Common
  import opened Sums

  /** The stored figure after the first n deltas, starting from `start`. */
  function Clamped(start: int, deltas: seq<int>, n: nat): int
    requires n <= |deltas|
  {
    if n == 0 then start else Max(0, Clamped(start, deltas, n - 1) + deltas[n - 1])
  }

  function PrefixSum(deltas: seq<int>, n: nat): int
    requires n <= |deltas|
  {
    if n == 0 then 0 else PrefixSum(deltas, n - 1) + deltas[n - 1]
  }

  /** `low` is the least prefix sum, the empty prefix included. */
  ghost predicate IsLowest(deltas: seq<int>, n: nat, low: int)
    requires n <= |deltas|
  {
    && (forall m: nat | m <= n :: low <= PrefixSum(deltas, m))
    && (exists m: nat :: m <= n && low == PrefixSum(deltas, m))
  }

  function Lowest(deltas: seq<int>, n: nat): (low: int)
    requires n <= |deltas|
    ensures IsLowest(deltas, n, low) && low <= 0
  {
    if n == 0 then
      assert PrefixSum(deltas, 0) == 0;
      0
    else
      var low, s := Lowest(deltas, n - 1), PrefixSum(deltas, n);
      if s < low then
        s
      else
        low
  }

  /** From zero, the clamped figure is the plain sum minus the lowest prefix sum. */
  lemma {:induction false} ClampedIsSumMinusLowest(deltas: seq<int>, n: nat)
    requires n <= |deltas|
    ensures Clamped(0, deltas, n) == PrefixSum(deltas, n) - Lowest(deltas, n)
  {
    if n > 0 {
      ClampedIsSumMinusLowest(deltas, n - 1);
    }
  }

  /** So it never falls below the true figure, and is exact just when no prefix goes negative. */
  lemma ClampedBounds(deltas: seq<int>, n: nat)
    requires n <= |deltas|
    ensures Clamped(0, deltas, n) >= PrefixSum(deltas, n)
    ensures Clamped(0, deltas, n) == PrefixSum(deltas, n) <==> forall m: nat | m <= n :: PrefixSum(deltas, m) >= 0
  {
    hide Clamped, PrefixSum, Lowest;
    ClampedIsSumMinusLowest(deltas, n);
    var low := Lowest(deltas, n);
    assert IsLowest(deltas, n, low) && low <= 0;
    if low < 0 {
      var m: nat :| m <= n && low == PrefixSum(deltas, m);
      assert PrefixSum(deltas, m) < 0;
    } else {
      assert forall m: nat | m <= n :: low <= PrefixSum(deltas, m);
    }
  }

  /** Whether any single step of the run is cut off at zero. */
  ghost predicate ClampFires(deltas: seq<int>, n: nat)
    requires n <= |deltas|
  {
    exists m: nat :: m < n && Clamped(0, deltas, m) + deltas[m] < 0
  }

  lemma {:induction false} ClampFiresIff(deltas: seq<int>, n: nat)
    requires n <= |deltas|
    ensures ClampFires(deltas, n) <==> Lowest(deltas, n) < 0
  {
    if n > 0 {
      ClampFiresIff(deltas, n - 1);
      ClampedIsSumMinusLowest(deltas, n - 1);
      if ClampFires(deltas, n - 1) {
        var m: nat :| m < n - 1 && Clamped(0, deltas, m) + deltas[m] < 0;
        assert ClampFires(deltas, n);
      }
    }
  }

  lemma {:induction false} PrefixSumIsSumSeq(deltas: seq<int>, n: nat)
    requires n <= |deltas|
    ensures PrefixSum(deltas, n) == SumSeq(deltas[..n])
  {
    if n > 0 {
      PrefixSumIsSumSeq(deltas, n - 1);
      assert deltas[..n][..n - 1] == deltas[..n - 1];
    }
  }
}
