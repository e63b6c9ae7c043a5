/** Sales against the average price that the broker last answered with. */
module SalesOverCost {
  import opened Outcomes
  import opened Pricing
  import opened Strategy
  import opened LadderSize
  import opened StrategyRuns
  import opened StrategyConduct

  // ---------- When a sale is sent ----------

  function ModeProfit(cfg: Config, positions: int): real {
    if Defending(cfg, positions) && cfg.defProfit.Some? then cfg.defProfit.value else cfg.profit
  }

  function MaxProfit(cfg: Config): real {
    if cfg.maxProfit.Some? then cfg.maxProfit.value else 0.03
  }

  /** A close at or over the goal of the mode, and at or over the goal of the highest
      profit as well while sales are protected. */
  predicate CloseReaches(cfg: Config, positions: int, avgp: real, close: real, protection: bool) {
    && close >= avgp + Scaled(avgp, ModeProfit(cfg, positions))
    && (protection ==> close >= avgp + Scaled(avgp, MaxProfit(cfg)))
  }

  predicate StartsSale(s: State, t: State) {
    !s.sellInProgress && t.sellInProgress
  }

  lemma GoalIsScaled(avgp: real, profit: real)
    ensures GoalPrice(avgp, profit) == avgp + Scaled(avgp, profit)
  {
    TickIsScaled(avgp, profit);
  }

  /** The sell phase starts a sale exactly when shares are held at a known average and
      the close reaches the goals; an accepted one is of the whole position. */
  lemma SaleStartsIff(cfg: Config, s: State, e: Event)
    requires cfg.Valid() && e.SellPhase?
    ensures var t := Apply(cfg, s, e);
            && (StartsSale(s, t) <==> && !s.sellInProgress && s.positions > 0 && s.avgp > 0.0
                                      && CloseReaches(cfg, s.positions, s.avgp, e.close, e.protection))
            && (StartsSale(s, t) && e.accepted ==>
                  t == s.(sellInProgress := true, openSell := s.openSell + s.positions,
                          sells := s.sells + [MarketSell(e.close, s.avgp, s.positions)]))
            && (StartsSale(s, t) && !e.accepted ==> t == s.(sellInProgress := true))
            && (!StartsSale(s, t) ==> t == s)
  {
    DefenceIs(s.positions, cfg.maxpozic, cfg.defModeFrom);
    GoalIsScaled(s.avgp, ModeProfit(cfg, s.positions));
    GoalIsScaled(s.avgp, MaxProfit(cfg));
  }

  lemma OnlySellPhasesStart(cfg: Config, s: State, e: Event)
    requires cfg.Valid() && Enabled(s, e) && StartsSale(s, Apply(cfg, s, e))
    ensures e.SellPhase?
  {
    if Lays(cfg, s, e) { LadderFrame(cfg, s, e); }
  }

  // ---------- The average price ----------

  /** The average price that pos() answers with in this step, if it is asked and does
      not fail. */
  function AnswerOf(cfg: Config, e: Event): Option<real>
    requires cfg.Valid()
  {
    match e
    case ConsolidationPhase(index, Known(avgp)) => if index % cfg.consolidationBarCount == 0 then Some(avgp) else None
    case Fill(_, Known(avgp)) => Some(avgp)
    case PartFill(_, _, Known(avgp)) => Some(avgp)
    case MarketFill(_, _, Known(avgp)) => Some(avgp)
    case MarketPart(_, Known(avgp)) => Some(avgp)
    case SellWhole(Known(avgp), _) => Some(avgp)
    case SellCancel(Known(avgp), _) => Some(avgp)
    case _ => None
  }

  /** It is asked, the failure is stored. */
  predicate AnswerFails(cfg: Config, e: Event)
    requires cfg.Valid()
  {
    match e
    case ConsolidationPhase(index, report) => report.Unknown? && index % cfg.consolidationBarCount == 0
    case Fill(_, report) => report.Unknown?
    case PartFill(_, _, report) => report.Unknown?
    case MarketFill(_, _, report) => report.Unknown?
    case MarketPart(_, report) => report.Unknown?
    case _ => false
  }

  /** The average price after a step: as answered; -1 after a failure; 0 with nothing left
      after a sale; otherwise as it was. */
  function AverageAfter(cfg: Config, s: State, e: Event, held: int): real
    requires cfg.Valid()
  {
    if AnswerOf(cfg, e).Some? then AnswerOf(cfg, e).value
    else if AnswerFails(cfg, e) then -1.0
    else if (e.SellPart? || e.SellWhole?) && held == 0 then 0.0
    else s.avgp
  }

  predicate Stores(cfg: Config, s: State, e: Event, t: State)
    requires cfg.Valid()
  {
    t.avgp == AverageAfter(cfg, s, e, t.held) && (AnswerOf(cfg, e).Some? ==> t.positions == t.held)
  }

  lemma PhaseStores(cfg: Config, s: State, e: Event)
    requires cfg.Valid() && IsPhase(e)
    ensures Stores(cfg, s, e, ApplyPhase(cfg, s, e))
  {
    if Lays(cfg, s, e) { LadderFrame(cfg, s, e); }
  }

  lemma BuyUpdateStores(cfg: Config, s: State, e: Event)
    requires cfg.Valid() && Enabled(s, e) && !IsPhase(e) && !IsSellUpdate(e)
    ensures Stores(cfg, s, e, ApplyBuyUpdate(s, e))
  {
  }

  lemma SellUpdateStores(cfg: Config, s: State, e: Event)
    requires cfg.Valid() && IsSellUpdate(e)
    ensures Stores(cfg, s, e, ApplySellUpdate(cfg, s, e))
  {
  }

  /** Each answer is stored as it comes, average and position; without one the stored
      average stays, or says that there is none. */
  lemma AnswerIsStored(cfg: Config, s: State, e: Event)
    requires cfg.Valid() && Enabled(s, e)
    ensures Stores(cfg, s, e, Apply(cfg, s, e))
  {
    if IsPhase(e) {
      PhaseStores(cfg, s, e);
    } else if IsSellUpdate(e) {
      SellUpdateStores(cfg, s, e);
    } else {
      BuyUpdateStores(cfg, s, e);
    }
  }

  // ---------- Runs ----------

  function LastAnswer(cfg: Config, e: Event, last: real): real
    requires cfg.Valid()
  {
    match AnswerOf(cfg, e)
    case Some(avgp) => avgp
    case None => last
  }

  /** Every sale of the run starts at a close that reaches the goals counted from the
      average that pos() last answered with before it, `last` to begin with. */
  ghost predicate SoldOverCost(cfg: Config, s: State, es: seq<Event>, last: real)
    requires cfg.Valid() && Legal(cfg, s, es)
    decreases |es|
  {
    es != [] ==>
      && (StartsSale(s, Apply(cfg, s, es[0])) ==>
            es[0].SellPhase? && CloseReaches(cfg, s.positions, last, es[0].close, es[0].protection))
      && SoldOverCost(cfg, Apply(cfg, s, es[0]), es[1..], LastAnswer(cfg, es[0], last))
  }

  lemma {:induction false} SalesOverLastAnswer(cfg: Config, s: State, es: seq<Event>, last: real)
    requires cfg.Valid() && Legal(cfg, s, es) && (s.avgp == last || s.avgp <= 0.0)
    ensures SoldOverCost(cfg, s, es, last)
    decreases |es|
  {
    if es == [] {
    } else {
      var t := Apply(cfg, s, es[0]);
      if StartsSale(s, t) {
        OnlySellPhasesStart(cfg, s, es[0]);
        SaleStartsIff(cfg, s, es[0]);
      }
      AnswerIsStored(cfg, s, es[0]);
      SalesOverLastAnswer(cfg, t, es[1..], LastAnswer(cfg, es[0], last));
    }
  }

  /** In every run, whatever fails or is refused: each sale starts at a close that is
      over the last average the broker answered with by the scaled profit of the
      mode. */
  lemma EverySaleIsOverCost(cfg: Config, positions: nat, avgp: real, es: seq<Event>)
    requires cfg.Valid() && Legal(cfg, Initial(cfg, positions, avgp), es)
    ensures SoldOverCost(cfg, Initial(cfg, positions, avgp), es, avgp)
  {
    SalesOverLastAnswer(cfg, Initial(cfg, positions, avgp), es, avgp);
  }

  /** And with positive profits that is over the average itself. */
  lemma ReachedIsOver(cfg: Config, positions: int, avgp: real, close: real, protection: bool)
    requires ProfitsPositive(cfg) && CloseReaches(cfg, positions, avgp, close, protection)
    ensures close > avgp
  {
    GoalIsScaled(avgp, ModeProfit(cfg, positions));
    GoalAboveAverage(avgp, ModeProfit(cfg, positions));
  }
}
