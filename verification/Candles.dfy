/** The cumulative volume-weighted price of daily bars. */
module Candles {

  datatype Bar = Bar(high: real, low: real, close: real, volume: real) {
    predicate Proper() {
      0.0 < low <= close <= high && volume > 0.0
    }

    function Typical(): real {
      (high + low + close) / 3.0
    }
  }

  function CumVolume(bars: seq<Bar>, n: nat): real
    requires n <= |bars|
  {
    if n == 0 then 0.0 else CumVolume(bars, n - 1) + bars[n - 1].volume
  }

  function CumTraded(bars: seq<Bar>, n: nat): real
    requires n <= |bars|
  {
    if n == 0 then 0.0 else CumTraded(bars, n - 1) + bars[n - 1].Typical() * bars[n - 1].volume
  }

  lemma {:induction false} VolumePositive(bars: seq<Bar>, n: nat)
    requires n <= |bars| && forall b :: b in bars ==> b.Proper()
    ensures CumVolume(bars, n) >= 0.0 && (n > 0 ==> CumVolume(bars, n) > 0.0)
  {
    if n == 0 {
    } else {
      VolumePositive(bars, n - 1);
      assert bars[n - 1] in bars;
    }
  }

  lemma {:induction false} TradedBounds(bars: seq<Bar>, n: nat, lo: real, hi: real)
    requires n <= |bars| && forall b :: b in bars ==> b.Proper()
    requires forall i :: 0 <= i < n ==> lo <= bars[i].low && bars[i].high <= hi
    ensures lo * CumVolume(bars, n) <= CumTraded(bars, n) <= hi * CumVolume(bars, n)
  {
    if n == 0 {
    } else {
      TradedBounds(bars, n - 1, lo, hi);
      var b := bars[n - 1];
      assert b in bars;
      var volume, traded, price := CumVolume(bars, n - 1), CumTraded(bars, n - 1), b.Typical();
      Accumulate(lo, hi, traded, volume, price, b.volume);
      assert CumVolume(bars, n) == volume + b.volume;
      assert CumTraded(bars, n) == traded + price * b.volume;
    }
  }

  lemma Accumulate(lo: real, hi: real, traded: real, volume: real, price: real, weight: real)
    requires lo * volume <= traded <= hi * volume && lo <= price <= hi && weight >= 0.0
    ensures lo * (volume + weight) <= traded + price * weight <= hi * (volume + weight)
  {
    assert (price - lo) * weight >= 0.0 && (hi - price) * weight >= 0.0;
  }

  /** The vwap_cum entry of the k-th bar. */
  function VwapCum(bars: seq<Bar>, k: nat): real
    requires k < |bars| && forall b :: b in bars ==> b.Proper()
  {
    VolumePositive(bars, k + 1);
    CumTraded(bars, k + 1) / CumVolume(bars, k + 1)
  }

  /** Bar by bar: the price is carried on by the mean of high, low and close, each
      weighted with its volume; the first one is that mean. */
  lemma VwapCarriesOn(bars: seq<Bar>, k: nat)
    requires k < |bars| && forall b :: b in bars ==> b.Proper()
    ensures var mean := (bars[k].high + bars[k].low + bars[k].close) / 3.0;
            if k == 0 then VwapCum(bars, 0) == mean
            else VwapCum(bars, k) * (CumVolume(bars, k) + bars[k].volume)
                 == VwapCum(bars, k - 1) * CumVolume(bars, k) + mean * bars[k].volume
  {
    VolumePositive(bars, k + 1);
    VolumePositive(bars, k);
    assert bars[k] in bars;
    assert CumVolume(bars, k + 1) == CumVolume(bars, k) + bars[k].volume;
    assert CumTraded(bars, k + 1) == CumTraded(bars, k) + bars[k].Typical() * bars[k].volume;
    if k == 0 {
      assert CumVolume(bars, 0) == 0.0 && CumTraded(bars, 0) == 0.0;
      QuotientOfProduct(bars[0].Typical(), bars[0].volume);
    } else {
      VwapTimesVolume(bars, k);
      VwapTimesVolume(bars, k - 1);
    }
  }

  lemma VwapTimesVolume(bars: seq<Bar>, k: nat)
    requires k < |bars| && forall b :: b in bars ==> b.Proper()
    ensures VwapCum(bars, k) * CumVolume(bars, k + 1) == CumTraded(bars, k + 1)
  {
    VolumePositive(bars, k + 1);
    QuotientTimes(CumTraded(bars, k + 1), CumVolume(bars, k + 1));
  }

  lemma QuotientTimes(x: real, y: real)
    requires y > 0.0
    ensures x / y * y == x
  {
  }

  lemma QuotientOfProduct(x: real, y: real)
    requires y > 0.0
    ensures x * y / y == x
  {
  }

  function MinLow(bars: seq<Bar>, n: nat): (lo: real)
    requires 0 < n <= |bars|
    ensures (forall i :: 0 <= i < n ==> lo <= bars[i].low) && exists i :: 0 <= i < n && lo == bars[i].low
  {
    if n == 1 then bars[0].low
    else if bars[n - 1].low < MinLow(bars, n - 1) then bars[n - 1].low else MinLow(bars, n - 1)
  }

  function MaxHigh(bars: seq<Bar>, n: nat): (hi: real)
    requires 0 < n <= |bars|
    ensures (forall i :: 0 <= i < n ==> bars[i].high <= hi) && exists i :: 0 <= i < n && hi == bars[i].high
  {
    if n == 1 then bars[0].high
    else if bars[n - 1].high > MaxHigh(bars, n - 1) then bars[n - 1].high else MaxHigh(bars, n - 1)
  }

  /** Each cumulative price lies between the lowest low and the highest high of the
      bars so far. */
  lemma VwapStaysInRange(bars: seq<Bar>, k: nat)
    requires k < |bars| && forall b :: b in bars ==> b.Proper()
    ensures 0.0 < MinLow(bars, k + 1) <= VwapCum(bars, k) <= MaxHigh(bars, k + 1)
  {
    var lo, hi := MinLow(bars, k + 1), MaxHigh(bars, k + 1);
    LowPositive(bars, k + 1);
    VolumePositive(bars, k + 1);
    TradedBounds(bars, k + 1, lo, hi);
    QuotientBounds(CumTraded(bars, k + 1), CumVolume(bars, k + 1), lo, hi);
  }

  lemma LowPositive(bars: seq<Bar>, n: nat)
    requires 0 < n <= |bars| && forall b :: b in bars ==> b.Proper()
    ensures MinLow(bars, n) > 0.0
  {
    var i :| 0 <= i < n && MinLow(bars, n) == bars[i].low;
    assert bars[i] in bars;
  }

  function Divergence(close: real, vwap: real): real
    requires close + vwap != 0.0
  {
    (close - vwap) / (close + vwap)
  }

  /** The normalised divergence of a close from the cumulative price is defined and
      stays strictly inside (-1, 1). */
  lemma DivergenceStaysInside(bars: seq<Bar>, k: nat)
    requires k < |bars| && forall b :: b in bars ==> b.Proper()
    ensures bars[k].close + VwapCum(bars, k) > 0.0
    ensures -1.0 < Divergence(bars[k].close, VwapCum(bars, k)) < 1.0
  {
    VwapStaysInRange(bars, k);
    assert bars[k] in bars;
    QuotientInside(bars[k].close, VwapCum(bars, k));
  }

  /** It says by how much the close is over or under the price: the two are as 1 plus to
      1 minus the divergence. */
  lemma DivergenceIsRatio(close: real, vwap: real)
    requires close > 0.0 && vwap > 0.0
    ensures (1.0 + Divergence(close, vwap)) * vwap == (1.0 - Divergence(close, vwap)) * close
    ensures Divergence(close, vwap) > 0.0 <==> close > vwap
  {
    var d := Divergence(close, vwap);
    assert d * (close + vwap) == close - vwap;
  }

  lemma QuotientBounds(x: real, y: real, lo: real, hi: real)
    requires y > 0.0 && lo * y <= x <= hi * y
    ensures lo <= x / y <= hi
  {
    assert lo * y / y == lo && hi * y / y == hi;
  }

  lemma QuotientInside(a: real, b: real)
    requires a > 0.0 && b > 0.0
    ensures -1.0 < (a - b) / (a + b) < 1.0
  {
    assert (a + b) / (a + b) == 1.0 && -(a + b) / (a + b) == -1.0;
  }
}
