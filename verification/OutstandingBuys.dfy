/** Why the exposure bound asks ladders to wait: two runs in which a second ladder is
    laid over buys of the first that are still open, and one in which a ladder is laid
    over a position that a failed refresh has hidden. */
module OutstandingBuys {
  import opened Outcomes
  import opened Orders
  import opened Strategy
  import opened LadderOrders
  import opened StrategyRuns

  /** Ladders of two chunks, the first at market or not, up to twenty shares. */
  function TwoChunks(atMarket: bool): (cfg: Config)
    ensures cfg.Valid()
  {
    Config(20, Some(1000.0), 10, 2, [0.01, 0.01], [], 0.02, None, None, atMarket, false, 1, 10, 0.04, false, 3, true)
  }

  lemma LaysTwoChunks(atMarket: bool, s: State, bar: Bar)
    requires WellFormed(s) && -1 <= s.positions <= 0 && !BuyBlocked(TwoChunks(atMarket), s, bar)
    ensures var t := Apply(TwoChunks(atMarket), s, BuyPhase(bar, true, 10.0, {}));
            && WellFormed(t) && Exposure(t) == Exposure(s) + 20
            && t.held == s.held && t.positions == s.positions && t.openBuy == s.openBuy + (if atMarket then 10 else 0)
            && t.lastbuyindex == bar.index
            && (Tracked(s) ==> Tracked(t) && t.orders != [] && |t.pendingbuys| > 0)
  {
    var cfg, e := TwoChunks(atMarket), BuyPhase(bar, true, 10.0, {});
    assert CurveSteps(cfg, s) == 1;
    LadderTotal(cfg, s, 10.0, {});
    LadderStep(cfg, s, e);
    LadderIs(cfg, s, 10.0, bar.index, {});
    LadderFrame(cfg, s, e);
    if Tracked(s) {
      StepTracked(cfg, s, e);
      var t := Apply(cfg, s, e);
      assert OpenQty(t.orders) >= 10;
      assert t.orders[0] in t.orders && t.orders[0].id in t.pendingbuys;
    }
  }

  lemma CancelStep(cfg: Config, laid: State, cancelled: set<nat>)
    requires cfg.Valid() && WellFormed(laid) && |laid.pendingbuys| > 0
    ensures var freed := Apply(cfg, laid, PendingPhase(true, 10.0, cancelled));
            && freed == CancelPending(laid, cancelled).(blockbuy := 0)
            && WellFormed(freed) && freed.jevylozeno == 0
            && Exposure(freed) == Exposure(CancelPending(laid, cancelled))
  {
    CancelKeeps(laid, cancelled);
  }

  function FirstLadder(): Event {
    BuyPhase(Bar(3, 10.0, true, false, false), true, 10.0, {})
  }

  function NextLadder(): Event {
    BuyPhase(Bar(6, 10.0, true, false, false), true, 10.0, {})
  }

  ghost function Laid(atMarket: bool, avgp: real): State {
    Apply(TwoChunks(atMarket), Initial(TwoChunks(atMarket), 0, avgp), FirstLadder())
  }

  lemma InitialTracked(cfg: Config, positions: int, avgp: real)
    ensures var s := Initial(cfg, positions, avgp);
            Tracked(s) && Exposure(s) == s.held == s.positions == positions && s.openBuy == 0
  {
  }

  lemma FirstNotBlocked(atMarket: bool, s: State)
    requires s.lastbuyindex == 0 && s.blockbuy == 0 && s.jevylozeno == 0
    ensures !BuyBlocked(TwoChunks(atMarket), s, FirstLadder().bar)
  {
  }

  lemma FirstLadderLaid(atMarket: bool, avgp: real)
    ensures var laid := Laid(atMarket, avgp);
            && Tracked(laid) && |laid.pendingbuys| > 0 && Exposure(laid) == 20
            && laid.held == 0 && laid.positions == 0 && laid.lastbuyindex == 3
            && laid.openBuy == if atMarket then 10 else 0
  {
    var s := Initial(TwoChunks(atMarket), 0, avgp);
    InitialTracked(TwoChunks(atMarket), 0, avgp);
    assert s.lastbuyindex == 0 && s.blockbuy == 0 && s.jevylozeno == 0;
    FirstNotBlocked(atMarket, s);
    LaysTwoChunks(atMarket, s, FirstLadder().bar);
  }

  lemma AfterCancel(atMarket: bool, laid: State, cancelled: set<nat>) returns (es: seq<Event>)
    requires Tracked(laid) && |laid.pendingbuys| > 0 && laid.positions == 0 && laid.lastbuyindex == 3
    ensures Legal(TwoChunks(atMarket), laid, es)
    ensures Exposure(Run(TwoChunks(atMarket), laid, es)) == Exposure(CancelPending(laid, cancelled)) + 20
  {
    var cfg := TwoChunks(atMarket);
    CancelStep(cfg, laid, cancelled);
    var freed := Apply(cfg, laid, PendingPhase(true, 10.0, cancelled));
    LaysTwoChunks(atMarket, freed, NextLadder().bar);
    RunCons(cfg, freed, NextLadder(), []);
    RunCons(cfg, laid, PendingPhase(true, 10.0, cancelled), [NextLadder()] + []);
    es := [PendingPhase(true, 10.0, cancelled)] + ([NextLadder()] + []);
  }

  /** Two ladders with a cancel of the pending buys between them. */
  lemma TwoLadders(atMarket: bool, avgp: real, cancelled: set<nat>) returns (es: seq<Event>)
    ensures Legal(TwoChunks(atMarket), Initial(TwoChunks(atMarket), 0, avgp), es)
    ensures Exposure(Run(TwoChunks(atMarket), Initial(TwoChunks(atMarket), 0, avgp), es))
            == Exposure(CancelPending(Laid(atMarket, avgp), cancelled)) + 20
  {
    FirstLadderLaid(atMarket, avgp);
    var rest := AfterCancel(atMarket, Laid(atMarket, avgp), cancelled);
    RunCons(TwoChunks(atMarket), Initial(TwoChunks(atMarket), 0, avgp), FirstLadder(), rest);
    es := [FirstLadder()] + rest;
  }

  /** A ladder opened at market, its limit buys cancelled, the next ladder before the
      market buy is filled: 30 shares against a bound of 29, and a `maxpozic` of 20. */
  lemma OutstandingMarketBuyBreaksBound(avgp: real) returns (es: seq<Event>)
    ensures Legal(TwoChunks(true), Initial(TwoChunks(true), 0, avgp), es)
    ensures Exposure(Run(TwoChunks(true), Initial(TwoChunks(true), 0, avgp), es)) == 30
            > Bound(TwoChunks(true), 0) == 29 > TwoChunks(true).maxpozic
  {
    FirstLadderLaid(true, avgp);
    var cancelled := set o | o in Laid(true, avgp).orders :: o.id;
    CancelTracks(Laid(true, avgp), cancelled);
    es := TwoLadders(true, avgp, cancelled);
  }

  /** A ladder of limit orders, a cancel of them that the broker refuses, the next
      ladder: `pendingbuys` was emptied, so the strategy lays it over the first one.
      40 shares. */
  lemma RefusedCancelBreaksBound(avgp: real) returns (es: seq<Event>)
    ensures Legal(TwoChunks(false), Initial(TwoChunks(false), 0, avgp), es)
    ensures Exposure(Run(TwoChunks(false), Initial(TwoChunks(false), 0, avgp), es)) == 40
            > Bound(TwoChunks(false), 0) == 29 > TwoChunks(false).maxpozic
  {
    FirstLadderLaid(false, avgp);
    WithoutAbsent(Laid(false, avgp).orders, {} * Laid(false, avgp).pendingbuys.Keys);
    es := TwoLadders(false, avgp, {});
  }

  lemma HiddenPosition(cfg: Config, s: State, e: Event)
    requires cfg.Valid() && Tracked(s) && e.ConsolidationPhase? && e.report.Unknown?
    requires Due(cfg, e) && s.orders == [] && s.blockbuy == 0
    ensures var t := Apply(cfg, s, e);
            && Tracked(t) && t.positions == -1 && t.held == s.held && t.jevylozeno == 0 && t.blockbuy == 0
            && t.lastbuyindex == s.lastbuyindex && Exposure(t) == Exposure(s)
  {
    ConsolidationTracks(cfg, s, e);
    ConsolidationKeeps(cfg, s, e.index, e.report);
    assert PendingOf([]) == map[];
  }

  /** The full position is held, a due consolidation gets no answer and stores -1 for
      it, the next bar lays a ladder with room for everything. 40 shares. */
  lemma HiddenPositionBreaksBound(avgp: real) returns (es: seq<Event>)
    ensures Legal(TwoChunks(false), Initial(TwoChunks(false), 20, avgp), es)
    ensures Exposure(Run(TwoChunks(false), Initial(TwoChunks(false), 20, avgp), es)) == 40
            > Bound(TwoChunks(false), 20) == 29
  {
    var cfg, s := TwoChunks(false), Initial(TwoChunks(false), 20, avgp);
    var consolidation := ConsolidationPhase(0, Unknown);
    InitialTracked(cfg, 20, avgp);
    HiddenPosition(cfg, s, consolidation);
    var hidden := Apply(cfg, s, consolidation);
    FirstNotBlocked(false, hidden);
    LaysTwoChunks(false, hidden, FirstLadder().bar);
    RunCons(cfg, hidden, FirstLadder(), []);
    RunCons(cfg, s, consolidation, [FirstLadder()] + []);
    es := [consolidation] + ([FirstLadder()] + []);
  }
}
