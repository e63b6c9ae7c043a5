/** Price rounding, tick normalisation and the defensive-mode test. */
module Pricing {
  import opened Outcomes

  const NORMALIZED_TICK_BASE_PRICE := 30.0

  function Power10(n: nat): (r: real)
    ensures r >= 1.0
  {
    if n == 0 then 1.0 else 10.0 * Power10(n - 1)
  }

  function RoundTo(x: real, decimals: nat): real {
    (x * Power10(decimals) + 0.5).Floor as real / Power10(decimals)
  }

  /** The floor of the decimal logarithm of a fraction. */
  function FloorLog10(fraction: real): (k: int)
    requires 0.0 < fraction < 1.0
    ensures k < 0
    decreases (1.0 / fraction).Floor
  {
    if fraction >= 0.1 then -1
    else
      InverseFalls(fraction);
      FloorLog10(10.0 * fraction) - 1
  }

  lemma InverseFalls(fraction: real)
    requires 0.0 < fraction < 0.1
    ensures 0 <= (1.0 / (10.0 * fraction)).Floor < (1.0 / fraction).Floor
  {
    var inverse := 1.0 / fraction;
    assert inverse * fraction == 1.0;
    assert (inverse - 10.0) * fraction > 0.0;
    assert 1.0 / (10.0 * fraction) == inverse / 10.0;
  }

  /** The rounding is to happen when the price has more than `decimals` decimals.
      The number compared is the logarithm of the fraction, which is negative: no
      price is ever rounded. */
  function Price2Dec(price: real, decimals: nat): (r: real)
    ensures r == price
  {
    var fraction := price - price.Floor as real;
    if fraction == 0.0 then price
    else if FloorLog10(fraction) > decimals then RoundTo(price, decimals)
    else price
  }

  /** A tick given for a 30 dollar share, scaled up for dearer shares. */
  function GetTick(price: real, normalizedTicks: real): real {
    if price < NORMALIZED_TICK_BASE_PRICE then
      normalizedTicks
    else
      Price2Dec(price / NORMALIZED_TICK_BASE_PRICE * normalizedTicks, 2)
  }

  /** A tick counts as given under the base price, and in proportion over it. */
  function Scaled(price: real, tick: real): real {
    if price <= 30.0 then tick else price * tick / 30.0
  }

  lemma TickIsScaled(price: real, tick: real)
    ensures GetTick(price, tick) == Scaled(price, tick)
  {
    if price >= 30.0 {
      assert price / NORMALIZED_TICK_BASE_PRICE * tick == price * tick / 30.0;
    }
  }

  /** Python's int() of a float: towards zero. */
  function Truncate(x: real): int {
    if x >= 0.0 then x.Floor else -(-x).Floor
  }

  /** Defensive mode starts at a configured position, or at half of `maxpozic`. */
  predicate IsDefensive(positions: int, maxpozic: int, defModeFrom: Option<real>) {
    var from := match defModeFrom { case Some(v) => v case None => maxpozic as real / 2.0 };
    positions >= Truncate(from)
  }

  /** From `def_mode_from` positions up, from half of `maxpozic` up if it is not set.
      Positions are whole, so that truncation moves a threshold down to the next whole
      number, or up to it when it is negative. */
  predicate InDefence(positions: int, maxpozic: int, defModeFrom: Option<real>) {
    match defModeFrom
    case Some(from) => if from >= 0.0 then positions as real > from - 1.0 else positions as real >= from
    case None => if maxpozic >= 0 then 2 * positions + 1 >= maxpozic else 2 * positions >= maxpozic
  }

  lemma WholeAtLeastFloor(n: int, x: real)
    ensures n >= x.Floor <==> n as real > x - 1.0
  {
    if n < x.Floor { assert n as real + 1.0 == (n + 1) as real <= x.Floor as real; }
  }

  lemma DefensiveFrom(positions: int, maxpozic: int, from: real)
    ensures IsDefensive(positions, maxpozic, Some(from)) <==> InDefence(positions, maxpozic, Some(from))
  {
    WholeAtLeastFloor(positions, from);
    WholeAtLeastFloor(-positions - 1, -from);
  }

  lemma DefensiveFromHalf(positions: int, maxpozic: int)
    ensures IsDefensive(positions, maxpozic, None) <==> InDefence(positions, maxpozic, None)
  {
    DefensiveFrom(positions, maxpozic, maxpozic as real / 2.0);
    var p, m := positions as real, maxpozic as real;
    assert (2 * positions) as real == 2.0 * p;
    assert p > m / 2.0 - 1.0 <==> 2.0 * p > m - 2.0;
    assert (2 * positions - maxpozic) as real == 2.0 * p - m;
  }

  lemma DefenceIs(positions: int, maxpozic: int, defModeFrom: Option<real>)
    ensures IsDefensive(positions, maxpozic, defModeFrom) <==> InDefence(positions, maxpozic, defModeFrom)
  {
    match defModeFrom
    case Some(from) => DefensiveFrom(positions, maxpozic, from);
    case None => DefensiveFromHalf(positions, maxpozic);
  }

  /** Scaling keeps the sign of a tick at every price, and never shrinks it. */
  lemma TickGrows(price: real, t: real)
    ensures GetTick(price, t) > 0.0 <==> t > 0.0
    ensures GetTick(price, t) == 0.0 <==> t == 0.0
    ensures t >= 0.0 ==> GetTick(price, t) >= t
    ensures t > 0.0 ==> (GetTick(price, t) == t <==> price <= NORMALIZED_TICK_BASE_PRICE)
  {
    if price >= NORMALIZED_TICK_BASE_PRICE {
      var over := price / NORMALIZED_TICK_BASE_PRICE - 1.0;
      assert price / NORMALIZED_TICK_BASE_PRICE * t == t + over * t;
      SignOfProduct(over, t);
    }
  }

  lemma SignOfProduct(a: real, t: real)
    requires a >= 0.0
    ensures t > 0.0 ==> (a * t >= 0.0 && (a * t == 0.0 <==> a == 0.0))
    ensures t == 0.0 ==> a * t == 0.0
    ensures t < 0.0 ==> a * t <= 0.0
  {
  }

  /** The target price of a sale: the average price plus a tick. */
  function GoalPrice(avgp: real, profit: real): real {
    Price2Dec(avgp + GetTick(avgp, profit), 3)
  }

  /** "Sold at the goal price" means "sold above the average price" exactly when
      the configured profit is positive, however small, at every average price. */
  lemma GoalAboveAverage(avgp: real, profit: real)
    ensures GoalPrice(avgp, profit) > avgp <==> profit > 0.0
  {
    TickGrows(avgp, profit);
  }
}
