/** How the strategy behaves over runs apart from its exposure: its sales, the
    spacing of its ladders, its clean-ups, and whether it recovers. */
module StrategyConduct {
  import opened Pricing
  import opened Orders
  import opened Strategy
  import opened LadderOrders
  import opened StrategyRuns

  // ---------- Sales ----------

  ghost predicate SalesProfitable(s: State) {
    forall sale :: sale in s.sells ==> sale.size > 0 && sale.close > sale.avgp > 0.0
  }

  /** What is on sale is held, only a sale in progress has something on sale, and the
      strategy knows the position or stores that it does not. */
  ghost predicate Covered(s: State) {
    && 0 <= s.openSell <= s.held
    && (!s.sellInProgress ==> s.openSell == 0)
    && (s.positions == s.held || s.positions == -1)
  }

  predicate SaleOver(e: Event) {
    e.SellWhole? || e.SellCancel?
  }

  function Ended(es: seq<Event>): nat {
    if es == [] then 0 else (if SaleOver(es[0]) then 1 else 0) + Ended(es[1..])
  }

  function OnSale(s: State): nat {
    if s.openSell > 0 then 1 else 0
  }

  predicate ProfitsPositive(cfg: Config) {
    cfg.profit > 0.0 && (cfg.defProfit.Some? ==> cfg.defProfit.value > 0.0)
  }

  lemma SellPhaseSales(cfg: Config, s: State, close: real, protection: bool, accepted: bool)
    requires Covered(s)
    ensures var t := EvalSell(cfg, s, close, protection, accepted);
            && Covered(t) && |t.sells| + OnSale(s) == |s.sells| + OnSale(t)
            && (SalesProfitable(s) && ProfitsPositive(cfg) ==> SalesProfitable(t))
  {
    GoalAboveAverage(s.avgp, cfg.profit);
    if cfg.defProfit.Some? { GoalAboveAverage(s.avgp, cfg.defProfit.value); }
  }

  lemma SellUpdateSales(cfg: Config, s: State, e: Event)
    requires cfg.Valid() && Enabled(s, e) && Covered(s) && IsSellUpdate(e)
    ensures var t := ApplySellUpdate(cfg, s, e);
            && Covered(t) && t.sells == s.sells
            && OnSale(s) == OnSale(t) + (if SaleOver(e) then 1 else 0)
  {
  }

  ghost predicate SameSales(s: State, t: State) {
    && t.sells == s.sells && t.openSell == s.openSell && t.sellInProgress == s.sellInProgress
    && t.held >= s.held
    && (t.positions == t.held || t.positions == -1 || (t.positions == s.positions && t.held == s.held))
  }

  lemma SalesUntouched(s: State, e: Event)
    requires Enabled(s, e) && !IsPhase(e) && !IsSellUpdate(e)
    requires e.Fill? ==> s.orders[e.k].Remaining() > 0
    ensures SameSales(s, ApplyBuyUpdate(s, e))
  {
  }

  lemma BuyUpdateSales(s: State, e: Event)
    requires Enabled(s, e) && WellFormed(s) && Covered(s) && !IsPhase(e) && !IsSellUpdate(e)
    ensures var t := ApplyBuyUpdate(s, e); Covered(t) && SameSales(s, t)
  {
    if e.Fill? { assert s.orders[e.k] in s.orders; }
    SalesUntouched(s, e);
  }

  lemma PhaseSales(cfg: Config, s: State, e: Event)
    requires cfg.Valid() && Covered(s) && IsPhase(e)
    ensures var t := ApplyPhase(cfg, s, e);
            && Covered(t) && |t.sells| + OnSale(s) == |s.sells| + OnSale(t)
            && (SalesProfitable(s) && ProfitsPositive(cfg) ==> SalesProfitable(t))
  {
    if e.SellPhase? {
      SellPhaseSales(cfg, s, e.close, e.protection, e.accepted);
    } else if Lays(cfg, s, e) {
      LadderFrame(cfg, s, e);
    }
  }

  lemma StepSales(cfg: Config, s: State, e: Event)
    requires cfg.Valid() && Enabled(s, e) && Covered(s) && WellFormed(s)
    ensures var t := Apply(cfg, s, e);
            && Covered(t)
            && |t.sells| + OnSale(s) == |s.sells| + OnSale(t) + (if SaleOver(e) then 1 else 0)
            && (SalesProfitable(s) && ProfitsPositive(cfg) ==> SalesProfitable(t))
  {
    if IsPhase(e) {
      PhaseSales(cfg, s, e);
    } else if IsSellUpdate(e) {
      SellUpdateSales(cfg, s, e);
    } else {
      BuyUpdateSales(s, e);
    }
  }

  lemma {:induction false} SalesFrom(cfg: Config, s: State, es: seq<Event>)
    requires cfg.Valid() && Legal(cfg, s, es) && Covered(s) && WellFormed(s)
    ensures var t := Run(cfg, s, es);
            && Covered(t)
            && |t.sells| + OnSale(s) == |s.sells| + OnSale(t) + Ended(es)
            && (SalesProfitable(s) && ProfitsPositive(cfg) ==> SalesProfitable(t))
    decreases |es|
  {
    if es == [] {
    } else {
      StepSales(cfg, s, es[0]);
      StepKeeps(cfg, s, es[0]);
      SalesFrom(cfg, Apply(cfg, s, es[0]), es[1..]);
    }
  }

  /** Sales in every run, whatever the broker refuses: what is on sale is held, so the
      position never turns short; each sale it took ends, filled or cancelled, before
      the next one; and with positive profits every sale is sent at a close above the
      average price. */
  lemma SalesAreSafe(cfg: Config, positions: nat, avgp: real, es: seq<Event>)
    requires cfg.Valid() && Legal(cfg, Initial(cfg, positions, avgp), es)
    ensures var s := Run(cfg, Initial(cfg, positions, avgp), es);
            && 0 <= s.openSell <= s.held
            && |s.sells| == Ended(es) + OnSale(s)
            && (ProfitsPositive(cfg) ==> SalesProfitable(s))
  {
    SalesFrom(cfg, Initial(cfg, positions, avgp), es);
  }

  // ---------- Can a sale still be sent? ----------

  /** A sale is in progress and no order is left that could end it. */
  predicate SellingOver(s: State) {
    s.sellInProgress && s.openSell == 0
  }

  /** The ways into that state: a sale is cancelled, or refused when it is sent. */
  predicate EndsSelling(cfg: Config, s: State, e: Event) {
    || e.SellCancel?
    || (e.SellPhase? && Sends(cfg, s, e.close, e.protection) && !e.accepted)
  }

  lemma StepEndsSelling(cfg: Config, s: State, e: Event)
    requires cfg.Valid() && Enabled(s, e) && Covered(s) && WellFormed(s) && !SellingOver(s)
    ensures SellingOver(Apply(cfg, s, e)) <==> EndsSelling(cfg, s, e)
  {
    if Lays(cfg, s, e) {
      LadderFrame(cfg, s, e);
    } else if IsSellUpdate(e) {
      SellUpdateSales(cfg, s, e);
    } else if !IsPhase(e) {
      BuyUpdateSales(s, e);
    }
  }

  lemma AfterSelling(cfg: Config, s: State, e: Event)
    requires cfg.Valid() && Enabled(s, e) && SellingOver(s)
    ensures var t := Apply(cfg, s, e); SellingOver(t) && t.sells == s.sells
  {
    if Lays(cfg, s, e) { LadderFrame(cfg, s, e); }
  }

  lemma {:induction false} NoSaleAgain(cfg: Config, s: State, es: seq<Event>)
    requires cfg.Valid() && Legal(cfg, s, es) && SellingOver(s)
    ensures SellingOver(Run(cfg, s, es)) && Run(cfg, s, es).sells == s.sells
    decreases |es|
  {
    if es == [] {
    } else {
      AfterSelling(cfg, s, es[0]);
      NoSaleAgain(cfg, Apply(cfg, s, es[0]), es[1..]);
    }
  }

  /** A sale that is cancelled, and one that is refused, leaves `sell_in_progress` set
      with no order left that could clear it; no other step does, and no run sells
      after it. */
  lemma CancelledSaleIsLast(cfg: Config, s: State, e: Event, es: seq<Event>)
    requires cfg.Valid() && Enabled(s, e) && Legal(cfg, Apply(cfg, s, e), es)
    requires Covered(s) && WellFormed(s) && !SellingOver(s)
    ensures SellingOver(Apply(cfg, s, e)) <==> EndsSelling(cfg, s, e)
    ensures EndsSelling(cfg, s, e) ==> Run(cfg, Apply(cfg, s, e), es).sells == s.sells
  {
    StepEndsSelling(cfg, s, e);
    if EndsSelling(cfg, s, e) {
      NoSaleAgain(cfg, Apply(cfg, s, e), es);
    }
  }

  ghost predicate SellingResumes(cfg: Config, s: State)
    requires cfg.Valid()
  {
    exists es :: Legal(cfg, s, es) && !Run(cfg, s, es).sellInProgress
  }

  /** Selling can be resumed from a state exactly when no sale is in progress or
      something is still on sale. */
  lemma SellingResumesIff(cfg: Config, s: State)
    requires cfg.Valid() && s.openSell >= 0
    ensures SellingResumes(cfg, s) <==> !s.sellInProgress || s.openSell > 0
  {
    if !s.sellInProgress {
      assert Legal(cfg, s, []) && !Run(cfg, s, []).sellInProgress;
    } else if s.openSell > 0 {
      var e := SellWhole(Unknown, {});
      RunCons(cfg, s, e, []);
      var es := [e] + [];
      assert Legal(cfg, s, es) && !Run(cfg, s, es).sellInProgress;
    } else if SellingResumes(cfg, s) {
      var es :| Legal(cfg, s, es) && !Run(cfg, s, es).sellInProgress;
      NoSaleAgain(cfg, s, es);
    }
  }

  // ---------- Timing and cleaning up ----------

  /** Ladders of a run are at least `lastbuy_offset` bars after `last`: the bar of the
      ladder before, or -5 when a sale has ended since and the offset is configured
      to be reset; outside the rush hours; and, when so configured, on confirmed bars
      only. */
  ghost predicate OnSchedule(cfg: Config, s: State, es: seq<Event>, last: int)
    requires cfg.Valid() && Legal(cfg, s, es)
    decreases |es|
  {
    es != [] ==>
      var lays := Lays(cfg, s, es[0]);
      && (lays ==>
            var bar := es[0].bar;
            bar.index >= last + cfg.lastbuyOffset && !bar.openRush && !bar.closeRush
            && (cfg.buyOnlyOnConfirmed ==> bar.confirmed))
      && OnSchedule(cfg, Apply(cfg, s, es[0]), es[1..],
                    if lays then es[0].bar.index
                    else if SaleOver(es[0]) && cfg.offsetResetAfterSell then -5 else last)
  }

  lemma StepLastBuy(cfg: Config, s: State, e: Event)
    requires cfg.Valid() && Enabled(s, e)
    ensures Apply(cfg, s, e).lastbuyindex
            == if Lays(cfg, s, e) then e.bar.index
               else if SaleOver(e) && cfg.offsetResetAfterSell then -5 else s.lastbuyindex
  {
    if Lays(cfg, s, e) { LadderFrame(cfg, s, e); }
  }

  lemma {:induction false} LaddersKeepSchedule(cfg: Config, s: State, es: seq<Event>)
    requires cfg.Valid() && Legal(cfg, s, es)
    ensures OnSchedule(cfg, s, es, s.lastbuyindex)
    decreases |es|
  {
    if es == [] {
    } else {
      StepLastBuy(cfg, s, es[0]);
      LaddersKeepSchedule(cfg, Apply(cfg, s, es[0]), es[1..]);
    }
  }

  /** In a reachable state `pendingbuys` may name closed orders, or miss open ones;
      after a due consolidation it names the open ones and no others, and
      `jevylozeno` tells whether any is open. */
  lemma ConsolidationClearsStale(cfg: Config, s: State, index: int, report: Report)
    requires cfg.Valid() && WellFormed(s) && index % cfg.consolidationBarCount == 0
    ensures var t := Consolidate(cfg, s, index, report);
            && (forall id :: id in t.pendingbuys <==> exists o :: o in s.orders && o.id == id)
            && (t.jevylozeno == 1 <==> s.orders != [])
  {
    PendingOfIsLimitBuys(s.orders);
    var pending := PendingOf(s.orders);
    if s.orders != [] {
      assert s.orders[0] in s.orders && s.orders[0].id in pending.Keys;
    } else {
      assert pending == map[];
    }
  }

  /** A pending phase that gives up forgets every pending buy and lets the strategy
      buy again, whatever the broker does with the cancels; the orders it carries out
      are gone, and from a tracked state no other is left exactly when it carries out
      all. A pending phase that does not give up changes nothing. */
  lemma PendingPhaseOutcome(s: State, cancel: bool, lastPrice: real, cancelled: set<nat>)
    ensures var t := OptimizePending(s, cancel, lastPrice, cancelled);
            if GivesUp(s, cancel, lastPrice) then
              && t.pendingbuys == map[] && t.blockbuy == 0 && t.jevylozeno == 0
              && (forall o :: o in t.orders <==> o in s.orders && !(o.id in s.pendingbuys && o.id in cancelled))
              && (Tracked(s) ==> (t.orders == [] <==> AllCancelled(s, cancelled)))
            else t == s
  {
    WithoutKeepsRest(s.orders, cancelled * s.pendingbuys.Keys);
    if Tracked(s) { CancelTracks(s, cancelled); }
  }

  // ---------- Recovery ----------

  ghost predicate NothingOpen(s: State) {
    s.orders == [] && s.openBuy == 0
  }

  /** `blockbuy` is set only while a buy is open whose end will clear it. */
  ghost predicate Held(s: State) {
    s.blockbuy == 1 ==> !NothingOpen(s)
  }

  /** The ways to lose the last open buy with `blockbuy` set and no buy notification
      to clear it: a sale that ends has it cancelled, it ends with another status, or
      a whole ladder is refused. */
  ghost predicate Strands(cfg: Config, s: State, e: Event)
    requires cfg.Valid()
  {
    match e
    case SellWhole(_, cancelled) => s.blockbuy == 1 && s.openBuy == 0 && CancelPending(s, cancelled).orders == []
    case SellCancel(_, cancelled) => s.blockbuy == 1 && s.openBuy == 0 && CancelPending(s, cancelled).orders == []
    case Lapse(_) => s.blockbuy == 1 && s.openBuy == 0 && |s.orders| == 1
    case BuyPhase(_, _, lastPrice, refused) =>
      Lays(cfg, s, e) && NothingOpen(s) && LadderQty(cfg, s, lastPrice, refused) == 0
    case _ => false
  }

  lemma {:induction false} OpenQtyPositive(book: Book)
    requires forall o :: o in book ==> o.Remaining() > 0
    ensures OpenQty(book) >= 0 && (OpenQty(book) == 0 <==> book == [])
  {
    if book == [] {
    } else {
      assert book[0] in book && forall o :: o in book[1..] ==> o in book;
      OpenQtyPositive(book[1..]);
    }
  }

  lemma OpenIsExposed(s: State)
    requires WellFormed(s)
    ensures Exposure(s) >= s.held && (Exposure(s) == s.held <==> NothingOpen(s))
  {
    OpenQtyPositive(s.orders);
  }

  lemma LadderHolds(cfg: Config, s: State, e: Event)
    requires cfg.Valid() && WellFormed(s) && Lays(cfg, s, e)
    ensures Held(Apply(cfg, s, e)) <==> !Strands(cfg, s, e)
  {
    LadderStep(cfg, s, e);
    LadderFrame(cfg, s, e);
    LadderQtyWithin(cfg, s, e.lastPrice, e.refused);
    OpenIsExposed(s);
    OpenIsExposed(Apply(cfg, s, e));
  }

  lemma PhaseHolds(cfg: Config, s: State, e: Event)
    requires cfg.Valid() && WellFormed(s) && Held(s) && IsPhase(e) && !Lays(cfg, s, e)
    ensures Held(ApplyPhase(cfg, s, e)) && !Strands(cfg, s, e)
  {
  }

  lemma BuyUpdateHolds(cfg: Config, s: State, e: Event)
    requires cfg.Valid() && Enabled(s, e) && WellFormed(s) && Held(s) && !IsPhase(e) && !IsSellUpdate(e)
    ensures Held(ApplyBuyUpdate(s, e)) <==> !Strands(cfg, s, e)
  {
  }

  lemma SellHolds(cfg: Config, s: State, e: Event)
    requires cfg.Valid() && Enabled(s, e) && WellFormed(s) && Held(s) && IsSellUpdate(e)
    ensures Held(ApplySellUpdate(cfg, s, e)) <==> !Strands(cfg, s, e)
  {
  }

  /** Nothing else strands: the end of every other open buy clears `blockbuy`. */
  lemma StepHolds(cfg: Config, s: State, e: Event)
    requires cfg.Valid() && Enabled(s, e) && WellFormed(s) && Held(s)
    ensures Held(Apply(cfg, s, e)) <==> !Strands(cfg, s, e)
  {
    if Lays(cfg, s, e) {
      LadderHolds(cfg, s, e);
    } else if IsPhase(e) {
      PhaseHolds(cfg, s, e);
    } else if IsSellUpdate(e) {
      SellHolds(cfg, s, e);
    } else {
      BuyUpdateHolds(cfg, s, e);
    }
  }

  ghost predicate NeverStrands(cfg: Config, s: State, es: seq<Event>)
    requires cfg.Valid() && Legal(cfg, s, es)
    decreases |es|
  {
    es != [] ==> !Strands(cfg, s, es[0]) && NeverStrands(cfg, Apply(cfg, s, es[0]), es[1..])
  }

  lemma {:induction false} HeldRun(cfg: Config, s: State, es: seq<Event>)
    requires cfg.Valid() && Legal(cfg, s, es) && WellFormed(s) && Held(s) && NeverStrands(cfg, s, es)
    ensures WellFormed(Run(cfg, s, es)) && Held(Run(cfg, s, es))
    decreases |es|
  {
    if es == [] {
    } else {
      StepKeeps(cfg, s, es[0]);
      StepHolds(cfg, s, es[0]);
      HeldRun(cfg, Apply(cfg, s, es[0]), es[1..]);
    }
  }

  /** Fills alone do recover: in every run without a stranding step, when all buys
      have ended, the next due consolidation leaves both flags down and nothing
      pending. */
  lemma RecoversWhenFilled(cfg: Config, positions: int, avgp: real, es: seq<Event>, index: int, report: Report)
    requires cfg.Valid() && Legal(cfg, Initial(cfg, positions, avgp), es)
    requires NeverStrands(cfg, Initial(cfg, positions, avgp), es)
    requires NothingOpen(Run(cfg, Initial(cfg, positions, avgp), es)) && index % cfg.consolidationBarCount == 0
    ensures var t := Consolidate(cfg, Run(cfg, Initial(cfg, positions, avgp), es), index, report);
            t.blockbuy == 0 && t.jevylozeno == 0 && t.pendingbuys == map[]
  {
    HeldRun(cfg, Initial(cfg, positions, avgp), es);
  }

  // ---------- The stuck state ----------

  /** Buying is blocked, and the strategy knows of no order that would unblock it. */
  ghost predicate Quiet(s: State) {
    s.blockbuy == 1 && s.orders == [] && s.pendingbuys == map[]
  }

  lemma QuietStep(cfg: Config, s: State, e: Event)
    requires cfg.Valid() && Enabled(s, e) && Quiet(s) && (IsPhase(e) || (s.openBuy == 0 && !e.Notice?))
    ensures var t := Apply(cfg, s, e); Quiet(t) && t.openBuy == s.openBuy && t.held <= s.held
  {
    assert PendingOf([]) == map[];
  }

  predicate OnlyPhases(es: seq<Event>) {
    forall e <- es :: IsPhase(e)
  }

  predicate NoLateNotice(es: seq<Event>) {
    forall e <- es :: !e.Notice?
  }

  lemma {:induction false} StaysQuiet(cfg: Config, s: State, es: seq<Event>)
    requires cfg.Valid() && Legal(cfg, s, es) && Quiet(s)
    requires OnlyPhases(es) || (s.openBuy == 0 && NoLateNotice(es))
    ensures Quiet(Run(cfg, s, es)) && Run(cfg, s, es).held <= s.held
    decreases |es|
  {
    if es == [] {
    } else {
      assert es[0] in es && forall e :: e in es[1..] ==> e in es;
      QuietStep(cfg, s, es[0]);
      StaysQuiet(cfg, Apply(cfg, s, es[0]), es[1..]);
    }
  }

  ghost predicate UnblockedByPhases(cfg: Config, s: State)
    requires cfg.Valid()
  {
    exists es :: Legal(cfg, s, es) && OnlyPhases(es) && Run(cfg, s, es).blockbuy == 0
  }

  ghost predicate UnblockedUnnotified(cfg: Config, s: State)
    requires cfg.Valid()
  {
    exists es :: Legal(cfg, s, es) && NoLateNotice(es) && Run(cfg, s, es).blockbuy == 0
  }

  lemma UnblockedByOne(cfg: Config, s: State, e: Event)
    requires cfg.Valid() && Enabled(s, e) && Apply(cfg, s, e).blockbuy == 0
    ensures IsPhase(e) ==> UnblockedByPhases(cfg, s)
    ensures !e.Notice? ==> UnblockedUnnotified(cfg, s)
  {
    RunCons(cfg, s, e, []);
    var es := [e] + [];
    assert Legal(cfg, s, es) && Run(cfg, s, es).blockbuy == 0;
  }

  lemma EmptyOrHasOrder(book: Book)
    ensures book == [] || exists o :: o in book
  {
    if book != [] {
      assert book[0] in book;
    }
  }

  lemma NothingPendingIsQuiet(s: State)
    requires Tracked(s) && s.blockbuy == 1 && |s.pendingbuys| == 0
    ensures Quiet(s)
  {
    EmptyOrHasOrder(s.orders);
  }

  /** What the bars can do by themselves: from a tracked state in which buying is
      blocked, some run of bar phases unblocks it if and only if there is a pending
      buy to give up. The reset of the flags is inside the test for pending buys. */
  lemma PhasesUnblockIff(cfg: Config, s: State)
    requires cfg.Valid() && Tracked(s) && s.blockbuy == 1
    ensures UnblockedByPhases(cfg, s) <==> |s.pendingbuys| > 0
  {
    if |s.pendingbuys| > 0 {
      UnblockedByOne(cfg, s, PendingPhase(true, 0.0, {}));
    } else if UnblockedByPhases(cfg, s) {
      NothingPendingIsQuiet(s);
      var es :| Legal(cfg, s, es) && OnlyPhases(es) && Run(cfg, s, es).blockbuy == 0;
      StaysQuiet(cfg, s, es);
    }
  }

  /** With everything the broker can do, short of reporting late on an order that is
      already closed: if and only if a buy is pending or a market buy is open. */
  lemma UnblockedIff(cfg: Config, s: State)
    requires cfg.Valid() && Tracked(s) && s.blockbuy == 1
    ensures UnblockedUnnotified(cfg, s) <==> |s.pendingbuys| > 0 || s.openBuy > 0
  {
    if |s.pendingbuys| > 0 {
      UnblockedByOne(cfg, s, PendingPhase(true, 0.0, {}));
    } else if s.openBuy > 0 {
      NothingPendingIsQuiet(s);
      UnblockedByOne(cfg, s, MarketFill(s.nextId, s.openBuy, Unknown));
    } else if UnblockedUnnotified(cfg, s) {
      NothingPendingIsQuiet(s);
      var es :| Legal(cfg, s, es) && NoLateNotice(es) && Run(cfg, s, es).blockbuy == 0;
      StaysQuiet(cfg, s, es);
    }
  }

  /** And that state is reached: a sale that ends while a ladder is out, none of it
      filled, with its cancels carried out. Unless the broker still reports those
      cancels, no run buys again. */
  lemma SaleStrands(cfg: Config, s: State, e: Event, es: seq<Event>)
    requires cfg.Valid() && Tracked(s) && Enabled(s, e) && SaleOver(e) && CancelsTaken(s, e)
    requires s.blockbuy == 1 && s.openBuy == 0
    requires Legal(cfg, Apply(cfg, s, e), es) && NoLateNotice(es)
    ensures Quiet(Run(cfg, Apply(cfg, s, e), es))
    ensures Run(cfg, Apply(cfg, s, e), es).held <= Apply(cfg, s, e).held
  {
    SellTracks(cfg, s, e);
    StaysQuiet(cfg, Apply(cfg, s, e), es);
  }
}
