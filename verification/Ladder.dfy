/** The walk down the price curve that turns a buy signal into limit orders. */
module Ladder {
  import opened Pricing

  datatype Rung = Rung(price: real, qty: int)

  /** The loop state: the limit orders placed so far, the current price, and the
      quantity carried into the next order. */
  datatype Walk = Walk(rungs: seq<Rung>, price: real, qty: int)

  function NextPrice(price: real, tick: real): real {
    Price2Dec(price - GetTick(price, tick), 2)
  }

  /** The prices of the walk: the start, and after each step down the curve. */
  function Path(curve: seq<real>, start: real, n: nat): (path: seq<real>)
    requires n <= |curve|
    ensures |path| == n + 1
  {
    if n == 0 then [start]
    else
      var before := Path(curve, start, n - 1);
      before + [NextPrice(before[n - 1], curve[n - 1])]
  }

  /** A step that does not move the price places nothing and carries its chunk
      over. */
  function Step(chunk: int, w: Walk, price: real): Walk {
    if price == w.price then Walk(w.rungs, price, w.qty + chunk)
    else Walk(w.rungs + [Rung(price, w.qty)], price, chunk)
  }

  function Allot(chunk: int, path: seq<real>): (w: Walk)
    requires path != []
    ensures w.price == path[|path| - 1]
  {
    if |path| == 1 then Walk([], path[0], chunk)
    else Step(chunk, Allot(chunk, path[..|path| - 1]), path[|path| - 1])
  }

  /** The first `n` steps of the walk. */
  function Descend(chunk: int, curve: seq<real>, start: real, n: nat): Walk
    requires n <= |curve|
  {
    Allot(chunk, Path(curve, start, n))
  }

  lemma DescendStep(chunk: int, curve: seq<real>, start: real, n: nat)
    requires n < |curve|
    ensures var w := Descend(chunk, curve, start, n);
            Descend(chunk, curve, start, n + 1) == Step(chunk, w, NextPrice(w.price, curve[n]))
  {
    var path := Path(curve, start, n + 1);
    assert path[..|path| - 1] == Path(curve, start, n);
  }

  function TotalQty(rungs: seq<Rung>): int {
    if rungs == [] then 0 else TotalQty(rungs[..|rungs| - 1]) + rungs[|rungs| - 1].qty
  }

  /** One step hands out one more chunk, to an order or to the carried quantity. */
  lemma StepConserves(chunk: int, w: Walk, price: real)
    requires w.qty >= chunk > 0 && forall r :: r in w.rungs ==> r.qty >= chunk
    ensures var next := Step(chunk, w, price);
            && TotalQty(next.rungs) + next.qty == TotalQty(w.rungs) + w.qty + chunk
            && next.qty >= chunk && (forall r :: r in next.rungs ==> r.qty >= chunk)
            && (next.qty == chunk <==> price != w.price)
  {
    var next := Step(chunk, w, price);
    if price != w.price {
      assert next.rungs[..|next.rungs| - 1] == w.rungs;
    }
  }

  lemma {:induction false} AllotConserves(chunk: int, path: seq<real>)
    requires path != [] && chunk > 0
    ensures var w := Allot(chunk, path);
            && chunk + TotalQty(w.rungs) + w.qty == chunk * (|path| + 1)
            && w.qty >= chunk && (forall r :: r in w.rungs ==> r.qty >= chunk)
            && (w.qty == chunk <==> |path| == 1 || path[|path| - 1] != path[|path| - 2])
  {
    if |path| == 1 {
    } else {
      AllotConserves(chunk, path[..|path| - 1]);
      StepConserves(chunk, Allot(chunk, path[..|path| - 1]), path[|path| - 1]);
      MultipleOf(chunk, |path|);
    }
  }

  lemma MultipleOf(chunk: int, n: int)
    ensures chunk * (n + 1) == chunk * n + chunk
  {
  }

  /** A step stands still exactly on a zero of the curve. */
  lemma NextPriceMoves(price: real, tick: real)
    ensures NextPrice(price, tick) == price <==> tick == 0.0
    ensures tick > 0.0 <==> NextPrice(price, tick) < price
  {
    TickGrows(price, tick);
  }

  lemma LastStepMoves(curve: seq<real>, start: real, n: nat)
    requires 0 < n <= |curve|
    ensures var path := Path(curve, start, n); path[n] != path[n - 1] <==> curve[n - 1] != 0.0
  {
    NextPriceMoves(Path(curve, start, n - 1)[n - 1], curve[n - 1]);
  }

  /** Conservation. Counting the first order of one chunk, `n` steps hand out
      `chunk * (n + 2)` between the orders and the quantity still carried; the
      orders alone reach `chunk * (n + 1)` exactly when nothing is left over: there
      was no step, or the curve does not end on a zero. */
  lemma Conservation(chunk: int, curve: seq<real>, start: real, n: nat)
    requires n <= |curve| && chunk > 0
    ensures var w := Descend(chunk, curve, start, n);
            && chunk + TotalQty(w.rungs) + w.qty == chunk * (n + 2)
            && chunk + TotalQty(w.rungs) <= chunk * (n + 1)
            && (chunk + TotalQty(w.rungs) == chunk * (n + 1) <==> n == 0 || curve[n - 1] != 0.0)
            && forall r :: r in w.rungs ==> r.qty >= chunk
  {
    AllotConserves(chunk, Path(curve, start, n));
    if n > 0 { LastStepMoves(curve, start, n); }
    MultipleOf(chunk, n + 1);
  }

  predicate Falls(start: real, rungs: seq<Rung>) {
    && (forall i :: 0 <= i < |rungs| ==> rungs[i].price < start)
    && (forall i, j :: 0 <= i < j < |rungs| ==> rungs[j].price < rungs[i].price)
  }

  function LastPrice(start: real, rungs: seq<Rung>): real {
    if rungs == [] then start else rungs[|rungs| - 1].price
  }

  lemma FallsSnoc(start: real, rungs: seq<Rung>, r: Rung)
    ensures Falls(start, rungs + [r]) <==> Falls(start, rungs) && r.price < LastPrice(start, rungs)
  {
    var longer := rungs + [r];
    assert forall i :: 0 <= i < |rungs| ==> longer[i] == rungs[i];
    assert longer[|rungs|] == r;
  }

  lemma StepFalls(chunk: int, start: real, w: Walk, price: real)
    requires w.price == LastPrice(start, w.rungs)
    ensures var next := Step(chunk, w, price);
            && next.price == LastPrice(start, next.rungs)
            && (Falls(start, next.rungs) <==> Falls(start, w.rungs) && price <= w.price)
  {
    FallsSnoc(start, w.rungs, Rung(price, w.qty));
  }

  predicate NeverRises(path: seq<real>) {
    forall i :: 0 < i < |path| ==> path[i] <= path[i - 1]
  }

  lemma {:induction false} AllotFalls(chunk: int, path: seq<real>)
    requires path != []
    ensures var w := Allot(chunk, path);
            && w.price == LastPrice(path[0], w.rungs)
            && (Falls(path[0], w.rungs) <==> NeverRises(path))
  {
    if |path| == 1 {
    } else {
      var before := path[..|path| - 1];
      AllotFalls(chunk, before);
      StepFalls(chunk, path[0], Allot(chunk, before), path[|path| - 1]);
      assert forall i :: 0 <= i < |before| ==> before[i] == path[i];
    }
  }

  lemma {:induction false} PathSteps(curve: seq<real>, start: real, n: nat)
    requires n <= |curve|
    ensures var path := Path(curve, start, n);
            path[0] == start && forall i :: 0 < i <= n ==> path[i] == NextPrice(path[i - 1], curve[i - 1])
  {
    if n == 0 {
    } else {
      PathSteps(curve, start, n - 1);
    }
  }

  /** Shape. The placed prices fall strictly, all under the starting price, exactly
      when no step of the curve that is taken is negative. */
  lemma Shape(chunk: int, curve: seq<real>, start: real, n: nat)
    requires n <= |curve|
    ensures Falls(start, Descend(chunk, curve, start, n).rungs) <==> forall i :: 0 <= i < n ==> curve[i] >= 0.0
  {
    var path := Path(curve, start, n);
    PathSteps(curve, start, n);
    AllotFalls(chunk, path);
    if NeverRises(path) {
      forall i | 0 <= i < n
        ensures curve[i] >= 0.0
      {
        NextPriceMoves(path[i], curve[i]);
        assert path[i + 1] == NextPrice(path[i], curve[i]) <= path[i];
      }
    }
    if forall i :: 0 <= i < n ==> curve[i] >= 0.0 {
      forall i | 0 < i <= n
        ensures path[i] <= path[i - 1]
      {
        NextPriceMoves(path[i - 1], curve[i - 1]);
      }
    }
  }
}
