/** The rising-trend test. */
module Trend {
  import opened Outcomes

  predicate Falls(prices: seq<real>, i: nat)
    requires i < |prices|
  {
    0 < i && prices[i] < prices[i - 1]
  }

  /** The first falling price at or after `i`; the length of the list if none. */
  function FirstFall(prices: seq<real>, i: nat): (f: nat)
    requires i <= |prices|
    ensures i <= f <= |prices|
    ensures f < |prices| ==> Falls(prices, f)
    ensures forall k :: i <= k < f ==> !Falls(prices, k)
    decreases |prices| - i
  {
    if i == |prices| || Falls(prices, i) then i else FirstFall(prices, i + 1)
  }

  /** Every falling price is over the first price of the list, and none is under the
      first falling price. */
  ghost predicate FallsHold(prices: seq<real>) {
    forall i :: 0 <= i < |prices| && Falls(prices, i) ==>
                  prices[i] > prices[0] && prices[i] >= prices[FirstFall(prices, 0)]
  }

  /** The test as written. Its second low is never used: the price that would
      become one already fails. */
  method IsRisingTrend(prices: seq<real>) returns (rising: bool)
    ensures rising <==> |prices| >= 2 && FallsHold(prices)
  {
    if |prices| < 2 {
      return false;
    }
    var lastLow: Option<real> := None;
    var lastLastLow := prices[0];
    var lastHigh := prices[0];
    ghost var f := FirstFall(prices, 0);
    var i := 1;
    while i < |prices|
      invariant 1 <= i <= |prices|
      invariant lastLastLow == prices[0]
      invariant lastLow == if f < i then Some(prices[f]) else None
      invariant forall k :: 0 <= k < i && Falls(prices, k) ==> prices[k] > prices[0] && prices[k] >= prices[f]
    {
      if prices[i] > prices[i - 1] {
        if prices[i] > lastHigh {
          lastHigh := prices[i];
        }
      } else if prices[i] < prices[i - 1] {
        assert Falls(prices, i);
        if prices[i] > lastLastLow {
          if lastLow.None? || prices[i] < lastLow.value {
            if lastLow.Some? {
              lastLastLow := lastLow.value;
              if prices[i] < lastLastLow {
                return false;
              }
            }
            lastLow := Some(prices[i]);
          }
        } else {
          return false;
        }
      }
      i := i + 1;
    }
    return true;
  }

  /** A rising trend never goes under its first price. */
  lemma {:induction false} FirstIsMinimum(prices: seq<real>, i: nat)
    requires FallsHold(prices) && i < |prices|
    ensures prices[i] >= prices[0]
  {
    if i == 0 {
    } else if Falls(prices, i) {
    } else {
      FirstIsMinimum(prices, i - 1);
    }
  }

  lemma FirstFallWithin(prices: seq<real>, longer: seq<real>, i: nat)
    requires i <= |prices| && prices <= longer
    ensures FirstFall(prices, i) < |prices| ==> FirstFall(longer, i) == FirstFall(prices, i)
    ensures FirstFall(prices, i) == |prices| ==> FirstFall(longer, i) >= |prices|
    decreases |prices| - i
  {
    if i < |prices| && !Falls(prices, i) {
      FirstFallWithin(prices, longer, i + 1);
    }
  }

  /** The highs are not tested at all, and of the lows only the first: whatever the
      list has done before, a new peak of any height followed by a fall to `y` is
      accepted exactly when `y` is over the first price and not under the first
      falling price. */
  lemma PeakPassesIff(prices: seq<real>, x: real, y: real)
    requires prices != [] && FallsHold(prices) && x >= prices[|prices| - 1] && y < x
    ensures FallsHold(prices + [x, y])
            <==> y > prices[0] && (FirstFall(prices, 0) < |prices| ==> y >= prices[FirstFall(prices, 0)])
  {
    var longer, n := prices + [x, y], |prices|;
    FirstFallWithin(prices, longer, 0);
    assert longer[n] == x && longer[n + 1] == y;
    assert Falls(longer, n + 1) && !Falls(longer, n);
    assert forall i :: 0 <= i < n ==> longer[i] == prices[i];
    assert forall i :: 0 <= i < n ==> (Falls(longer, i) <==> Falls(prices, i));
    if FirstFall(prices, 0) == n {
      assert FirstFall(longer, 0) == n + 1;
    }
  }

  /** Higher highs and higher lows are documented. These peaks are 9 and then 5, these
      falling prices 4 and then 3, and the list passes. */
  lemma LowerHighAndLowPass()
    ensures var prices := [1.0, 2.0, 1.5, 9.0, 4.0, 5.0, 3.0];
            && FallsHold(prices)
            && prices[3] > prices[2] && prices[3] > prices[4] && prices[5] > prices[4] && prices[5] > prices[6]
            && prices[5] < prices[3] && prices[6] < prices[4]
  {
    var prices := [1.0, 2.0, 1.5];
    assert FirstFall(prices, 2) == 2 && FirstFall(prices, 1) == 2 && FirstFall(prices, 0) == 2;
    assert FallsHold(prices);
    PeakPassesIff(prices, 9.0, 4.0);
    FirstFallWithin(prices, prices + [9.0, 4.0], 0);
    PeakPassesIff(prices + [9.0, 4.0], 5.0, 3.0);
    assert prices + [9.0, 4.0] + [5.0, 3.0] == [1.0, 2.0, 1.5, 9.0, 4.0, 5.0, 3.0];
  }
}
