/** Runs that end where the strategy stays: in one it never buys again, in two it
    never sells again. */
module StuckRuns {
  import opened Pricing
  import opened Strategy
  import opened LadderOrders
  import opened StrategyRuns
  import opened StrategyConduct
  import opened OutstandingBuys

  /** A ladder over a position of one chunk. */
  lemma LaysOneChunk(s: State, bar: Bar)
    requires Tracked(s) && s.positions == s.held == 10 && !BuyBlocked(TwoChunks(false), s, bar)
    ensures var t := Apply(TwoChunks(false), s, BuyPhase(bar, true, 10.0, {}));
            && Tracked(t) && t.blockbuy == 1 && t.orders != []
            && t.openBuy == s.openBuy && t.openSell == s.openSell && t.sellInProgress == s.sellInProgress
            && t.positions == t.held == 10 && t.avgp == s.avgp
  {
    var cfg, e := TwoChunks(false), BuyPhase(bar, true, 10.0, {});
    LadderStep(cfg, s, e);
    LadderFrame(cfg, s, e);
    StepTracked(cfg, s, e);
    SmallRoom(cfg, s, 10.0, {});
  }

  /** The goal price of these configurations, and a sale at it. */
  lemma SellsAtGoal(s: State)
    requires s.positions == 10 && s.avgp > 0.0 && !s.sellInProgress
    ensures Sends(TwoChunks(false), s, GoalPrice(s.avgp, 0.02), false)
  {
  }

  /** A chunk is held, a ladder is laid, everything held is sold before any of the
      ladder is filled, and the ladder's cancels are carried out: no run buys again
      that has no late report on them. */
  lemma SaleStrandsIsReached(avgp: real) returns (es: seq<Event>)
    requires avgp > 0.0
    ensures Legal(TwoChunks(false), Initial(TwoChunks(false), 10, avgp), es)
    ensures var s := Run(TwoChunks(false), Initial(TwoChunks(false), 10, avgp), es);
            Quiet(s) && Tracked(s) && s.openBuy == 0 && !UnblockedUnnotified(TwoChunks(false), s)
  {
    var cfg, s := TwoChunks(false), Initial(TwoChunks(false), 10, avgp);
    InitialTracked(cfg, 10, avgp);
    FirstNotBlocked(false, s);
    LaysOneChunk(s, FirstLadder().bar);
    var laid := Apply(cfg, s, FirstLadder());
    es := SoldOut(laid);
    RunCons(cfg, s, FirstLadder(), es);
    UnblockedIff(cfg, Run(cfg, laid, es));
    es := [FirstLadder()] + es;
  }

  lemma SoldOut(laid: State) returns (es: seq<Event>)
    requires Tracked(laid) && laid.blockbuy == 1 && laid.openBuy == 0 && laid.openSell == 0
    requires laid.positions == 10 && laid.avgp > 0.0 && !laid.sellInProgress
    ensures Legal(TwoChunks(false), laid, es)
    ensures var s := Run(TwoChunks(false), laid, es); Quiet(s) && Tracked(s) && s.openBuy == 0
  {
    var cfg := TwoChunks(false);
    var send := SellPhase(GoalPrice(laid.avgp, 0.02), false, true);
    SellsAtGoal(laid);
    StepTracked(cfg, laid, send);
    var selling := Apply(cfg, laid, send);
    assert selling.openSell == 10 && selling.orders == laid.orders && selling.blockbuy == 1 && selling.openBuy == 0;
    var done := SellWhole(Unknown, set o | o in laid.orders :: o.id);
    assert AllCancelled(selling, done.cancelled);
    StepTracked(cfg, selling, done);
    SaleStrands(cfg, selling, done, []);
    RunCons(cfg, selling, done, []);
    RunCons(cfg, laid, send, [done] + []);
    es := [send] + ([done] + []);
  }

  /** One refused sale, or one that is cancelled: ten shares are held and no run sells
      them. */
  lemma SellingOverIsReached(avgp: real, accepted: bool) returns (es: seq<Event>)
    requires avgp > 0.0
    ensures Legal(TwoChunks(false), Initial(TwoChunks(false), 10, avgp), es)
    ensures var s := Run(TwoChunks(false), Initial(TwoChunks(false), 10, avgp), es);
            SellingOver(s) && s.held == 10 && !SellingResumes(TwoChunks(false), s)
    ensures (exists e :: e in es && e.SellCancel?) <==> accepted
  {
    var cfg, s := TwoChunks(false), Initial(TwoChunks(false), 10, avgp);
    var send := SellPhase(GoalPrice(avgp, 0.02), false, accepted);
    SellsAtGoal(s);
    var sent := Apply(cfg, s, send);
    if accepted {
      var cancel := SellCancel(Unknown, {});
      RunCons(cfg, sent, cancel, []);
      RunCons(cfg, s, send, [cancel] + []);
      es := [send] + ([cancel] + []);
      assert cancel in es;
    } else {
      RunCons(cfg, s, send, []);
      es := [send] + [];
    }
    SellingResumesIff(cfg, Run(cfg, s, es));
  }
}
