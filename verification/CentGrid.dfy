/** When the unrounded prices of a ladder are whole cents. */
module CentGrid {
  import opened Pricing
  import opened Ladder

  function Dollars(cents: int): real {
    cents as real / 100.0
  }

  predicate WholeCents(price: real) {
    (price * 100.0).Floor as real == price * 100.0
  }

  lemma DividedBy3000(p: int, q: int, r: int)
    requires p == 3000 * q + r
    ensures p as real / 3000.0 == q as real + r as real / 3000.0
  {
  }

  lemma IntOrder(f: int, a: int)
    ensures f as real <= a as real || f as real >= a as real + 1.0
  {
    if f > a { assert f as real >= (a + 1) as real; }
  }

  lemma NoWholeBetween(x: real, a: int)
    requires a as real < x < a as real + 1.0
    ensures x.Floor as real != x
  {
    IntOrder(x.Floor, a);
  }

  lemma CentsLeft(next: real, whole: int, r: nat)
    requires r < 3000 && next == whole as real - r as real / 3000.0
    ensures next.Floor as real == next <==> r == 0
  {
    if r > 0 {
      assert whole as real - 1.0 < next < whole as real;
      NoWholeBetween(next, whole - 1);
    }
  }

  lemma ProductAsReal(a: int, b: int)
    ensures (a * b) as real == a as real * b as real
    decreases if b >= 0 then b else -b
  {
    if b == 0 {
    } else if b > 0 {
      ProductAsReal(a, b - 1);
      assert a * b == a * (b - 1) + a;
      assert a as real * b as real == a as real * (b - 1) as real + a as real;
    } else {
      ProductAsReal(a, b + 1);
      assert a * b == a * (b + 1) - a;
      assert a as real * b as real == a as real * (b + 1) as real - a as real;
    }
  }

  // ---------- One step ----------

  /** A step of `t` normalised cents from a price in cents is in whole cents. */
  predicate Keeps(cents: int, t: int) {
    cents < 3000 || cents * t % 3000 == 0
  }

  function NextCents(cents: int, t: int): int {
    if cents < 3000 then cents - t else cents - cents * t / 3000
  }

  lemma StepUnderBase(cents: int, t: int)
    requires cents < 3000
    ensures NextPrice(Dollars(cents), Dollars(t)) == Dollars(cents - t)
  {
  }

  lemma StepOverBase(cents: int, t: int)
    requires cents >= 3000
    ensures NextPrice(Dollars(cents), Dollars(t)) * 100.0 == cents as real - (cents * t) as real / 3000.0
  {
    ProductAsReal(cents, t);
    var c, d := cents as real, t as real;
    assert Dollars(cents) / NORMALIZED_TICK_BASE_PRICE * Dollars(t) * 100.0 == c * d / 3000.0;
  }

  lemma WholeDollars(cents: int)
    ensures WholeCents(Dollars(cents))
  {
    assert Dollars(cents) * 100.0 == cents as real;
  }

  /** Nothing is rounded on the way down: a step from a price in whole cents gives whole
      cents exactly under the base price, or when price times tick, in cents, is a
      multiple of the base price. */
  lemma StepKeepsCentsIff(cents: int, t: int)
    ensures WholeCents(NextPrice(Dollars(cents), Dollars(t))) <==> Keeps(cents, t)
    ensures Keeps(cents, t) ==> NextPrice(Dollars(cents), Dollars(t)) == Dollars(NextCents(cents, t))
  {
    if cents < 3000 {
      StepUnderBase(cents, t);
      WholeDollars(cents - t);
    } else {
      var q, r := cents * t / 3000, cents * t % 3000;
      StepOverBase(cents, t);
      DividedBy3000(cents * t, q, r);
      CentsLeft(NextPrice(Dollars(cents), Dollars(t)) * 100.0, cents - q, r);
    }
  }

  // ---------- A whole ladder ----------

  /** The curve for ticks given in cents. */
  function InDollars(ticks: seq<int>): (curve: seq<real>)
    ensures |curve| == |ticks|
    ensures forall i :: 0 <= i < |ticks| ==> curve[i] == Dollars(ticks[i])
  {
    seq(|ticks|, i requires 0 <= i < |ticks| => Dollars(ticks[i]))
  }

  /** `at` holds the prices in cents before and after each of the steps, as long as no
      step leaves the grid. */
  ghost predicate Follows(at: seq<int>, ticks: seq<int>) {
    |at| == |ticks| + 1 && forall i :: 0 <= i < |ticks| ==> at[i + 1] == NextCents(at[i], ticks[i])
  }

  function CentsFrom(start: int, ticks: seq<int>): (at: seq<int>)
    ensures Follows(at, ticks) && at[0] == start
  {
    if ticks == [] then [start]
    else
      var n := |ticks| - 1;
      var before := CentsFrom(start, ticks[..n]);
      before + [NextCents(before[n], ticks[n])]
  }

  /** Each of the first `n` steps keeps the grid. */
  predicate StepsKeep(at: seq<int>, ticks: seq<int>, n: nat)
    requires n <= |ticks| < |at|
  {
    forall i :: 0 <= i < n ==> Keeps(at[i], ticks[i])
  }

  predicate AllWhole(path: seq<real>) {
    forall i :: 0 <= i < |path| ==> WholeCents(path[i])
  }

  lemma AllWholeSnoc(path: seq<real>, x: real)
    ensures AllWhole(path + [x]) <==> AllWhole(path) && WholeCents(x)
  {
    var longer := path + [x];
    assert forall i :: 0 <= i < |path| ==> longer[i] == path[i];
    assert longer[|path|] == x;
  }

  lemma SnocOnGrid(before: seq<real>, cents: int, t: int)
    requires before != [] && (AllWhole(before) ==> before[|before| - 1] == Dollars(cents))
    ensures var next := NextPrice(before[|before| - 1], Dollars(t));
            && (AllWhole(before + [next]) <==> AllWhole(before) && Keeps(cents, t))
            && (AllWhole(before + [next]) ==> next == Dollars(NextCents(cents, t)))
  {
    AllWholeSnoc(before, NextPrice(before[|before| - 1], Dollars(t)));
    StepKeepsCentsIff(cents, t);
  }

  /** The path is in whole cents exactly when its steps keep the grid, and then where
      the steps lead in cents. */
  lemma {:induction false} PathOnGrid(at: seq<int>, ticks: seq<int>, n: nat)
    requires Follows(at, ticks) && n <= |ticks|
    ensures AllWhole(Path(InDollars(ticks), Dollars(at[0]), n)) <==> StepsKeep(at, ticks, n)
    ensures StepsKeep(at, ticks, n) ==> Path(InDollars(ticks), Dollars(at[0]), n)[n] == Dollars(at[n])
  {
    if n == 0 {
      WholeDollars(at[0]);
    } else {
      PathOnGrid(at, ticks, n - 1);
      SnocOnGrid(Path(InDollars(ticks), Dollars(at[0]), n - 1), at[n - 1], ticks[n - 1]);
    }
  }

  predicate RungsWhole(rungs: seq<Rung>) {
    forall r <- rungs :: WholeCents(r.price)
  }

  lemma {:induction false} AllotOnGrid(chunk: int, path: seq<real>)
    requires path != [] && WholeCents(path[0])
    ensures AllWhole(path) <==> RungsWhole(Allot(chunk, path).rungs)
  {
    if |path| == 1 {
    } else {
      var init, last := path[..|path| - 1], path[|path| - 1];
      AllotOnGrid(chunk, init);
      assert path == init + [last];
      AllWholeSnoc(init, last);
      var w := Allot(chunk, init);
      if last == w.price {
        AllotFalls(chunk, init);
        assert w.rungs != [] ==> w.rungs[|w.rungs| - 1] in w.rungs;
      } else {
        var r := Rung(last, w.qty);
        assert forall other :: other in w.rungs + [r] <==> other in w.rungs || other == r;
      }
    }
  }

  /** From a first price in whole cents, on a curve in whole cents, every order of the
      ladder is at whole cents if and only if every step keeps the grid, which only a
      step from the base price up can fail to do. */
  lemma LadderOnGridIff(chunk: int, start: int, ticks: seq<int>, n: nat)
    requires n <= |ticks|
    ensures RungsWhole(Descend(chunk, InDollars(ticks), Dollars(start), n).rungs)
            <==> StepsKeep(CentsFrom(start, ticks), ticks, n)
  {
    WholeDollars(start);
    PathSteps(InDollars(ticks), Dollars(start), n);
    PathOnGrid(CentsFrom(start, ticks), ticks, n);
    AllotOnGrid(chunk, Path(InDollars(ticks), Dollars(start), n));
  }

  lemma {:induction false} StaysUnderBase(at: seq<int>, ticks: seq<int>, i: nat)
    requires Follows(at, ticks) && at[0] < 3000 && i <= |ticks|
    requires forall k :: 0 <= k < |ticks| ==> ticks[k] >= 0
    ensures at[i] < 3000
  {
    if i == 0 {
    } else {
      StaysUnderBase(at, ticks, i - 1);
      assert at[i - 1 + 1] == NextCents(at[i - 1], ticks[i - 1]);
    }
  }

  /** Under the base price a falling ladder never leaves the grid. */
  lemma UnderBaseOnGrid(chunk: int, start: int, ticks: seq<int>, n: nat)
    requires n <= |ticks| && start < 3000 && forall k :: 0 <= k < |ticks| ==> ticks[k] >= 0
    ensures RungsWhole(Descend(chunk, InDollars(ticks), Dollars(start), n).rungs)
  {
    LadderOnGridIff(chunk, start, ticks, n);
    forall i | 0 <= i < n
      ensures CentsFrom(start, ticks)[i] < 3000
    {
      StaysUnderBase(CentsFrom(start, ticks), ticks, i);
    }
  }
}
