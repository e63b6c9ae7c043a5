/** The strategy as it runs: an object whose variables the phases of a bar and the
    order notifications update in place. Each method is proved against its step in
    `Strategy`; what the broker answers is a parameter. */
module StrategyObject {
  import opened Pricing
  import opened Orders
  import opened Ladder
  import opened Strategy
  import LadderOrders
  import StrategyRuns

  class LadderStrategy {
    const cfg: Config
    var positions: int
    var avgp: real
    var pendingbuys: map<nat, real>
    var jevylozeno: int
    var blockbuy: int
    var lastbuyindex: int
    var sellInProgress: bool
    var ticks2reset: real
    // the broker's side
    var held: int
    var orders: Book
    var nextId: nat
    var openBuy: int
    var openSell: int
    var sells: seq<MarketSell>

    ghost function Abs(): State
      reads this
    {
      State(held, positions, avgp, orders, nextId, openBuy, openSell, sells,
            pendingbuys, jevylozeno, blockbuy, lastbuyindex, sellInProgress, ticks2reset)
    }

    constructor (cfg: Config, positions: int, avgp: real)
      requires cfg.Valid()
      ensures this.cfg == cfg && Abs() == Initial(cfg, positions, avgp)
    {
      this.cfg := cfg;
      this.held, this.positions, this.avgp := positions, positions, avgp;
      pendingbuys, jevylozeno, blockbuy, lastbuyindex := map[], 0, 0, 0;
      sellInProgress, ticks2reset := false, cfg.ticks2resetBackup;
      orders, nextId, openBuy, openSell, sells := [], 0, 0, 0, [];
    }

    method IsDefensiveMode() returns (defensive: bool)
      ensures defensive == DefensiveMode(cfg, Abs())
    {
      var defModeFrom := if cfg.defModeFrom.Some? then cfg.defModeFrom.value else cfg.maxpozic as real / 2.0;
      defensive := positions >= Truncate(defModeFrom);
    }

    method BuyLimit(price: real, size: int, refused: set<nat>)
      modifies this
      ensures Abs() == PlaceLimit(cfg, old(Abs()), Rung(price, size), refused)
    {
      if positions >= cfg.maxpozic {
        return;
      }
      if nextId !in refused {
        orders := orders + [Order(nextId, BUY, LIMIT, price, size, 0)];
        pendingbuys := pendingbuys[nextId := price];
      }
      nextId := nextId + 1;
    }

    method BuyMarket(size: int, refused: set<nat>)
      modifies this
      ensures Abs() == BuyAtMarket(cfg, old(Abs()), size, refused)
    {
      if positions >= cfg.maxpozic {
        return;
      }
      if nextId !in refused {
        openBuy := openBuy + size;
      }
      nextId := nextId + 1;
    }

    /** The loop of the ladder: orders after the first one, down the curve. */
    method LayRungs(curve: seq<real>, vykladka: int, chunk: int, start: real, refused: set<nat>)
      requires vykladka <= |curve|
      modifies this
      ensures var steps := if vykladka >= 1 then vykladka - 1 else 0;
              Abs() == PlaceAll(cfg, old(Abs()), Descend(chunk, curve, start, steps).rungs, refused)
    {
      ghost var steps: nat := if vykladka >= 1 then vykladka - 1 else 0;
      var qty, price, last := chunk, start, start;
      var i := 0;
      while i < vykladka - 1
        invariant 0 <= i <= steps && price == last
        invariant LayFrom(cfg, Abs(), chunk, curve, price, qty, i, steps, refused)
                  == LayFrom(cfg, old(Abs()), chunk, curve, start, chunk, 0, steps, refused)
      {
        price := NextPrice(price, curve[i]);
        if price == last {
          qty := qty + chunk;
        } else {
          BuyLimit(price, qty, refused);
          qty := chunk;
        }
        last := price;
        i := i + 1;
      }
      LayFromIsWalk(cfg, old(Abs()), old(Abs()), chunk, curve, start, 0, steps, refused);
    }

    /** How many chunks to lay: the configured number, the room left and the
        length of the curve, whichever is least. */
    method CutVykladka(defensive: bool) returns (curve: seq<real>, vykladka: int)
      requires cfg.Valid() && defensive == DefensiveMode(cfg, Abs())
      ensures curve == Curve(cfg, Abs()) && vykladka == LadderLength(cfg, Abs())
    {
      var fits := TruncatedQuotient(cfg.maxpozic - positions, cfg.chunk);
      curve, vykladka := if defensive then cfg.curveDef else cfg.curve, cfg.vykladka;
      if fits < vykladka { vykladka := fits; }
      if |curve| < vykladka { vykladka := |curve|; }
    }

    method TuneTicks2reset(defensive: bool)
      modifies this`ticks2reset
      ensures Abs() == old(Abs()).(ticks2reset := if defensive then 0.06 else cfg.ticks2resetBackup)
    {
      if defensive {
        ticks2reset := 0.06;
      } else if ticks2reset != cfg.ticks2resetBackup {
        ticks2reset := cfg.ticks2resetBackup;
      }
    }

    method FirstOrder(defensive: bool, price: real, qty: int, refused: set<nat>)
      requires cfg.Valid() && qty == cfg.chunk && defensive == DefensiveMode(cfg, Abs())
      modifies this
      ensures Abs() == FirstBuy(cfg, old(Abs()), price, refused)
    {
      if cfg.firstBuyMarket && !(defensive && !cfg.firstBuyMarketDefMode) {
        var multiplier := if 0 < positions < 4 * cfg.chunk then cfg.marketBuyMultiplier else 1;
        BuyMarket(multiplier * qty, refused);
      } else {
        BuyLimit(price, qty, refused);
      }
    }

    method Vyloz(index: int, lastPrice: real, refused: set<nat>)
      requires cfg.Valid()
      modifies this
      ensures Abs() == LayLadder(cfg, old(Abs()), lastPrice, index, refused)
    {
      if positions >= cfg.maxpozic {
        return;
      }
      var defensive := IsDefensiveMode();
      var curve, vykladka := CutVykladka(defensive);
      TuneTicks2reset(defensive);
      var qty, price := cfg.chunk, Price2Dec(lastPrice, 2);
      FirstOrder(defensive, price, qty, refused);
      LayRungs(curve, vykladka, qty, price, refused);
      ghost var laid := Abs();
      blockbuy, jevylozeno, lastbuyindex := 1, 1, index;
      assert Abs() == laid.(blockbuy := 1, jevylozeno := 1, lastbuyindex := index);
    }

    /** pos() and what is stored of it. */
    method RefreshPosition(report: Report)
      modifies this`positions, this`avgp
      ensures Abs() == Refresh(old(Abs()), report)
    {
      if report.Known? {
        avgp, positions := report.avgp, held;
      } else {
        avgp, positions := -1.0, -1;
      }
    }

    method Consolidation(index: int, report: Report)
      requires cfg.Valid()
      modifies this
      ensures Abs() == Consolidate(cfg, old(Abs()), index, report)
    {
      if index % cfg.consolidationBarCount == 0 {
        RefreshPosition(report);
        var pendingbuysNew: map<nat, real> := map[];
        for i := 0 to |orders|
          invariant pendingbuysNew == PendingOf(orders[..i])
        {
          var o := orders[i];
          assert orders[..i + 1][..i] == orders[..i];
          if o.side == BUY && o.kind == LIMIT {
            pendingbuysNew := pendingbuysNew[o.id := o.limitPrice];
          }
        }
        assert orders[..|orders|] == orders;
        if pendingbuysNew != pendingbuys {
          pendingbuys := pendingbuysNew;
        }
        jevylozeno := if |pendingbuys| > 0 then 1 else 0;
      }
    }

    /** The answer of the broker is not looked at. */
    method Sell(close: real, protection: bool, accepted: bool)
      modifies this
      ensures Abs() == EvalSell(cfg, old(Abs()), close, protection, accepted)
    {
      if positions > 0 && avgp > 0.0 && !sellInProgress {
        var defensive := IsDefensiveMode();
        var defProfit := if cfg.defProfit.Some? then cfg.defProfit.value else cfg.profit;
        var goalPrice := Price2Dec(avgp + GetTick(avgp, if defensive then defProfit else cfg.profit), 3);
        var maxProfit := if cfg.maxProfit.Some? then cfg.maxProfit.value else 0.03;
        var maxPrice := Price2Dec(avgp + GetTick(avgp, maxProfit), 3);
        if close >= goalPrice {
          if close >= maxPrice || !protection {
            if accepted {
              openSell := openSell + positions;
              sells := sells + [MarketSell(close, avgp, positions)];
            }
            sellInProgress := true;
          }
        }
      }
    }

    method Buy(bar: Bar, signal: bool, lastPrice: real, refused: set<nat>)
      requires cfg.Valid()
      modifies this
      ensures Abs() == EvalBuy(cfg, old(Abs()), bar, signal, lastPrice, refused)
    {
      var blocked := cfg.buyOnlyOnConfirmed && !bar.confirmed;
      blocked := blocked || bar.index < lastbuyindex + cfg.lastbuyOffset;
      blocked := blocked || blockbuy == 1 || jevylozeno == 1;
      blocked := blocked || bar.openRush || bar.closeRush;
      if !blocked && signal {
        Vyloz(bar.index, lastPrice, refused);
      }
    }

    /** The dearest pending buy. */
    method MaxPending() returns (id: nat)
      requires |pendingbuys| > 0
      ensures IsDearest(pendingbuys, id)
    {
      id :| id in pendingbuys;
      var rest := pendingbuys.Keys - {id};
      while rest != {}
        invariant rest <= pendingbuys.Keys && id in pendingbuys
        invariant forall other :: other in pendingbuys && other !in rest ==> pendingbuys[other] <= pendingbuys[id]
        decreases rest
      {
        var other :| other in rest;
        if pendingbuys[other] > pendingbuys[id] {
          id := other;
        }
        rest := rest - {other};
      }
    }

    method GiveUp(cancel: bool, lastPrice: real) returns (giveUp: bool)
      requires |pendingbuys| > 0
      ensures giveUp == (cancel || RanAway(Abs(), lastPrice))
    {
      giveUp := cancel;
      if !cancel {
        var id := MaxPending();
        var maxPrice := pendingbuys[id];
        giveUp := lastPrice > maxPrice + GetTick(maxPrice, ticks2reset);
        forall other | IsDearest(pendingbuys, other)
          ensures pendingbuys[other] == maxPrice
        {
        }
      }
    }

    /** A cancel for every pending buy; the answers are not looked at. */
    method CancelPendingBuys(cancelled: set<nat>)
      modifies this`orders, this`pendingbuys, this`jevylozeno
      ensures Abs() == CancelPending(old(Abs()), cancelled)
    {
      WithoutAbsent(orders, {});
      if |pendingbuys| > 0 {
        var rest := pendingbuys.Keys;
        assert cancelled * (pendingbuys.Keys - rest) == {};
        while rest != {}
          invariant rest <= old(pendingbuys.Keys)
          invariant orders == Without(old(orders), cancelled * (old(pendingbuys.Keys) - rest))
          modifies this`orders, this`pendingbuys
          decreases rest
        {
          var key :| key in rest;
          ghost var done := cancelled * (old(pendingbuys.Keys) - rest);
          pendingbuys := pendingbuys - {key};
          if key in cancelled {
            orders := Without(orders, {key});
            WithoutTwice(old(orders), done, {key});
          }
          rest := rest - {key};
          assert cancelled * (old(pendingbuys.Keys) - rest) == if key in cancelled then done + {key} else done;
        }
        assert cancelled * (old(pendingbuys.Keys) - rest) == cancelled * old(pendingbuys.Keys);
      } else {
        assert cancelled * pendingbuys.Keys == {};
      }
      pendingbuys, jevylozeno := map[], 0;
    }

    method PendingbuysOptimalization(cancel: bool, lastPrice: real, cancelled: set<nat>)
      modifies this
      ensures Abs() == OptimizePending(old(Abs()), cancel, lastPrice, cancelled)
    {
      if |pendingbuys| > 0 {
        var giveUp := GiveUp(cancel, lastPrice);
        if giveUp {
          CancelPendingBuys(cancelled);
        }
        if |pendingbuys| == 0 {
          blockbuy, jevylozeno := 0, 0;
        }
      }
    }

    method OrderUpdateBuy(event: TradeEvent, id: nat, report: Report)
      modifies this`pendingbuys, this`blockbuy, this`positions, this`avgp
      ensures Abs() == BuyUpdate(old(Abs()), event, id, report)
    {
      if event == FILL || event == CANCELED {
        pendingbuys := pendingbuys - {id};
        blockbuy := 0;
      }
      if event == FILL || event == PARTIAL_FILL {
        RefreshPosition(report);
      }
    }

    /** The first part: the position, and what ends with the sale. */
    method NoteSell(event: TradeEvent, report: Report)
      modifies this`sellInProgress, this`positions, this`avgp, this`lastbuyindex, this`jevylozeno
      ensures Abs() == SellNoted(cfg, old(Abs()), event, report)
    {
      if event == FILL || event == PARTIAL_FILL {
        if event == FILL {
          sellInProgress := false;
        }
        positions := held;
        if held == 0 {
          avgp := 0.0;
        }
      }
      if event == FILL || event == CANCELED {
        if report.Known? {
          avgp, positions := report.avgp, held;
        }
        if cfg.offsetResetAfterSell {
          lastbuyindex := -5;
        }
        jevylozeno := 0;
      }
    }

    method OrderUpdateSell(event: TradeEvent, report: Report, cancelled: set<nat>)
      modifies this
      ensures Abs() == SellUpdate(cfg, old(Abs()), event, report, cancelled)
    {
      NoteSell(event, report);
      if event == FILL || event == CANCELED {
        CancelPendingBuys(cancelled);
      }
    }

    /** One bar: the four phases in the order the strategy runs them. Whatever the
        bar, the book stays in order; what the strategy knows of it is kept if the
        cancels are carried out; and exposure within any bound stays within it if the
        ladder that is laid, if one is, fits. */
    method Next(bar: Bar, lastPrice: real, protection: bool, signal: bool, cancel: bool,
                accepted: bool, report: Report, refused: set<nat>, cancelled: set<nat>, ghost bound: int)
      requires cfg.Valid() && StrategyRuns.WellFormed(Abs()) && StrategyRuns.Exposure(Abs()) <= bound
      modifies this
      ensures Abs() == OptimizePending(BeforePending(cfg, old(Abs()), bar, lastPrice, protection, signal, accepted,
                                                      report, refused),
                                       cancel, lastPrice, cancelled)
      ensures StrategyRuns.WellFormed(Abs())
      ensures StrategyRuns.Tracked(old(Abs()))
              && StrategyRuns.CancelsTaken(BeforePending(cfg, old(Abs()), bar, lastPrice, protection, signal, accepted,
                                                      report, refused),
                                           PendingPhase(cancel, lastPrice, cancelled))
              ==> StrategyRuns.Tracked(Abs())
      ensures (var s := BeforeBuy(cfg, old(Abs()), bar, protection, accepted, report);
               StrategyRuns.Lays(cfg, s, BuyPhase(bar, signal, lastPrice, refused)) ==>
                 StrategyRuns.Exposure(s) + LadderOrders.LadderQty(cfg, s, lastPrice, refused) <= bound)
              ==> StrategyRuns.Exposure(Abs()) <= bound
    {
      ghost var s := Abs();
      Sell(bar.close, protection, accepted);
      Consolidation(bar.index, report);
      Buy(bar, signal, lastPrice, refused);
      PendingbuysOptimalization(cancel, lastPrice, cancelled);
      BarKeeps(cfg, s, SellPhase(bar.close, protection, accepted), ConsolidationPhase(bar.index, report),
               BuyPhase(bar, signal, lastPrice, refused), PendingPhase(cancel, lastPrice, cancelled), bound);
    }
  }

  function BeforeBuy(cfg: Config, s: State, bar: Bar, protection: bool, accepted: bool, report: Report): State
    requires cfg.Valid()
  {
    Consolidate(cfg, EvalSell(cfg, s, bar.close, protection, accepted), bar.index, report)
  }

  function BeforePending(cfg: Config, s: State, bar: Bar, lastPrice: real, protection: bool, signal: bool,
                         accepted: bool, report: Report, refused: set<nat>): State
    requires cfg.Valid()
  {
    EvalBuy(cfg, BeforeBuy(cfg, s, bar, protection, accepted, report), bar, signal, lastPrice, refused)
  }

  /** The loop from step `i` on, as a function. */
  function LayFrom(cfg: Config, s: State, chunk: int, curve: seq<real>, price: real, qty: int, i: nat, steps: nat,
                   refused: set<nat>): State
    requires i <= steps <= |curve|
    decreases steps - i
  {
    if i == steps then s
    else
      var next := NextPrice(price, curve[i]);
      if next == price then LayFrom(cfg, s, chunk, curve, next, qty + chunk, i + 1, steps, refused)
      else
        LayFrom(cfg, PlaceLimit(cfg, s, Rung(next, qty), refused), chunk, curve, next, chunk, i + 1, steps, refused)
  }

  lemma {:induction false} LayFromIsWalk(cfg: Config, begun: State, s: State, chunk: int, curve: seq<real>, start: real,
                                         i: nat, steps: nat, refused: set<nat>)
    requires i <= steps <= |curve|
    requires s == PlaceAll(cfg, begun, Descend(chunk, curve, start, i).rungs, refused)
    ensures var w := Descend(chunk, curve, start, i);
            LayFrom(cfg, s, chunk, curve, w.price, w.qty, i, steps, refused)
            == PlaceAll(cfg, begun, Descend(chunk, curve, start, steps).rungs, refused)
    decreases steps - i
  {
    if i < steps {
      LaidStep(cfg, begun, chunk, curve, start, i, refused);
      LayFromIsWalk(cfg, begun, PlaceAll(cfg, begun, Descend(chunk, curve, start, i + 1).rungs, refused),
                    chunk, curve, start, i + 1, steps, refused);
    }
  }

  lemma LaidStep(cfg: Config, begun: State, chunk: int, curve: seq<real>, start: real, i: nat, refused: set<nat>)
    requires i < |curve|
    ensures var w, next := Descend(chunk, curve, start, i), Descend(chunk, curve, start, i + 1);
            && next == Step(chunk, w, NextPrice(w.price, curve[i]))
            && PlaceAll(cfg, begun, next.rungs, refused) ==
               if next.price == w.price then PlaceAll(cfg, begun, w.rungs, refused)
               else PlaceLimit(cfg, PlaceAll(cfg, begun, w.rungs, refused), Rung(next.price, w.qty), refused)
  {
    DescendStep(chunk, curve, start, i);
    var w, next := Descend(chunk, curve, start, i), Descend(chunk, curve, start, i + 1);
    if next.price != w.price {
      assert next.rungs[..|next.rungs| - 1] == w.rungs;
    }
  }

  lemma BarKeeps(cfg: Config, s: State, sell: Event, consolidation: Event, buy: Event, pending: Event, bound: int)
    requires cfg.Valid() && StrategyRuns.WellFormed(s) && StrategyRuns.Exposure(s) <= bound
    requires sell.SellPhase? && consolidation.ConsolidationPhase? && buy.BuyPhase? && pending.PendingPhase?
    ensures var s2 := Apply(cfg, Apply(cfg, s, sell), consolidation);
            var s3 := Apply(cfg, s2, buy);
            var t := Apply(cfg, s3, pending);
            && StrategyRuns.WellFormed(t)
            && (StrategyRuns.Tracked(s) && StrategyRuns.CancelsTaken(s3, pending) ==> StrategyRuns.Tracked(t))
            && ((StrategyRuns.Lays(cfg, s2, buy) ==>
                   StrategyRuns.Exposure(s2) + LadderOrders.LadderQty(cfg, s2, buy.lastPrice, buy.refused) <= bound)
                ==> StrategyRuns.Exposure(t) <= bound)
  {
    var s1 := Apply(cfg, s, sell);
    var s2 := Apply(cfg, s1, consolidation);
    var s3 := Apply(cfg, s2, buy);
    StrategyRuns.PhaseKeeps(cfg, s, sell);
    StrategyRuns.PhaseKeeps(cfg, s1, consolidation);
    StrategyRuns.PhaseKeeps(cfg, s2, buy);
    StrategyRuns.PhaseKeeps(cfg, s3, pending);
    if StrategyRuns.Tracked(s) {
      StrategyRuns.PhaseTracks(cfg, s, sell);
      StrategyRuns.PhaseTracks(cfg, s1, consolidation);
      StrategyRuns.PhaseTracks(cfg, s2, buy);
      StrategyRuns.PhaseTracks(cfg, s3, pending);
    }
  }
}
