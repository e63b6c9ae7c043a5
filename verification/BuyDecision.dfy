/** From configuration to ladder: the general preconditions, the configured
    directives and the ladder builder, joined as a bar joins them. */
module BuyDecision {
  import opened Outcomes
  import Strategy
  import StrategyRuns
  import opened StrategyObject
  import opened Directives

  const NOT_CONFIRMED := "bar_not_confirmed"
  const TOO_SOON := "last_buy_offset_too_soon"
  const BLOCKBUY := "blockbuy_active"
  const JEVYLOZENO := "jevylozeno_active"
  const OPEN_RUSH := "open_rush"
  const CLOSE_RUSH := "close_rush"

  /** The general preconditions as the condition dictionary holds them. */
  function GeneralPreconditions(cfg: Strategy.Config, s: Strategy.State, bar: Strategy.Bar): map<string, bool> {
    var confirmed := if cfg.buyOnlyOnConfirmed then map[NOT_CONFIRMED := !bar.confirmed] else map[];
    confirmed[TOO_SOON := bar.index < s.lastbuyindex + cfg.lastbuyOffset]
             [BLOCKBUY := s.blockbuy == 1][JEVYLOZENO := s.jevylozeno == 1]
             [OPEN_RUSH := bar.openRush][CLOSE_RUSH := bar.closeRush]
  }

  lemma DistinctNames()
    ensures |NOT_CONFIRMED| == |JEVYLOZENO| == 17 && NOT_CONFIRMED != JEVYLOZENO
    ensures |TOO_SOON| == 24 && |BLOCKBUY| == 15 && |OPEN_RUSH| == 9 && |CLOSE_RUSH| == 10
  {
    assert NOT_CONFIRMED[0] != JEVYLOZENO[0];
  }

  lemma AddCondition(m: map<string, bool>, key: string, holds: bool)
    requires key !in m
    ensures AnyTrue(m[key := holds]) <==> AnyTrue(m) || holds
  {
    if AnyTrue(m) {
      var other :| other in m && m[other];
      assert m[key := holds][other];
    }
    if holds { assert m[key := holds][key]; }
  }

  lemma FiveConditions(m: map<string, bool>, soon: bool, blockbuy: bool, jevylozeno: bool, open: bool, close: bool)
    requires m.Keys <= {NOT_CONFIRMED}
    ensures AnyTrue(m[TOO_SOON := soon][BLOCKBUY := blockbuy][JEVYLOZENO := jevylozeno]
                     [OPEN_RUSH := open][CLOSE_RUSH := close])
            <==> AnyTrue(m) || soon || blockbuy || jevylozeno || open || close
  {
    DistinctNames();
    AddCondition(m, TOO_SOON, soon);
    AddCondition(m[TOO_SOON := soon], BLOCKBUY, blockbuy);
    AddCondition(m[TOO_SOON := soon][BLOCKBUY := blockbuy], JEVYLOZENO, jevylozeno);
    var four := m[TOO_SOON := soon][BLOCKBUY := blockbuy][JEVYLOZENO := jevylozeno];
    AddCondition(four, OPEN_RUSH, open);
    AddCondition(four[OPEN_RUSH := open], CLOSE_RUSH, close);
  }

  /** One of them holds exactly when the buy phase is blocked. */
  lemma GeneralBlocks(cfg: Strategy.Config, s: Strategy.State, bar: Strategy.Bar)
    ensures AnyTrue(GeneralPreconditions(cfg, s, bar)) <==> Strategy.BuyBlocked(cfg, s, bar)
  {
    var confirmed := if cfg.buyOnlyOnConfirmed then map[NOT_CONFIRMED := !bar.confirmed] else map[];
    assert AnyTrue(confirmed) <==> cfg.buyOnlyOnConfirmed && !bar.confirmed by {
      assert cfg.buyOnlyOnConfirmed ==> confirmed[NOT_CONFIRMED] == !bar.confirmed;
    }
    FiveConditions(confirmed, bar.index < s.lastbuyindex + cfg.lastbuyOffset, s.blockbuy == 1, s.jevylozeno == 1,
                   bar.openRush, bar.closeRush);
  }

  /** A bar lays a ladder if and only if the general preconditions pass, there is
      room in `maxpozic`, and the directives, read straight off a configuration
      without clashes, say so. */
  lemma LaysIffMeans(cfg: Strategy.Config, s: Strategy.State, bar: Strategy.Bar, lastPrice: real, refused: set<nat>,
                     indicators: Indicators, market: Market, str: Printer)
    requires cfg.Valid() && NoClashes(indicators, str)
    ensures StrategyRuns.Lays(cfg, s, Strategy.BuyPhase(bar, ConfiguredSignal(indicators, market, str), lastPrice, refused))
            <==> Means(GeneralPreconditions(cfg, s, bar), indicators, market) && s.positions < cfg.maxpozic
  {
    GeneralBlocks(cfg, s, bar);
    CompilationPreservesMeaning(GeneralPreconditions(cfg, s, bar), indicators, market, str);
  }

  /** eval_buy on the object. On malformed sections it raises before it lays
      anything, unless a general precondition blocks first. */
  method EvalBuy(strategy: LadderStrategy, bar: Strategy.Bar, lastPrice: real, refused: set<nat>,
                 indicators: Indicators, market: Market, str: Printer) returns (r: Result<bool>)
    requires strategy.cfg.Valid()
    modifies strategy
    ensures WellFormed(indicators) ==>
              r.Ok? && strategy.Abs() == Strategy.EvalBuy(strategy.cfg, old(strategy.Abs()), bar,
                                                          ConfiguredSignal(indicators, market, str), lastPrice, refused)
    ensures !WellFormed(indicators) ==>
              strategy.Abs() == old(strategy.Abs())
              && r == if Strategy.BuyBlocked(strategy.cfg, old(strategy.Abs()), bar) then Ok(false) else Err(AttributeError)
  {
    ghost var s := strategy.Abs();
    GeneralBlocks(strategy.cfg, s, bar);
    var general := map[];
    if strategy.cfg.buyOnlyOnConfirmed {
      general := general[NOT_CONFIRMED := !bar.confirmed];
    }
    general := general[TOO_SOON := bar.index < strategy.lastbuyindex + strategy.cfg.lastbuyOffset];
    general := general[BLOCKBUY := strategy.blockbuy == 1];
    general := general[JEVYLOZENO := strategy.jevylozeno == 1];
    general := general[OPEN_RUSH := bar.openRush];
    general := general[CLOSE_RUSH := bar.closeRush];
    assert general == GeneralPreconditions(strategy.cfg, s, bar);
    r := ConditionsMet(general, indicators, market, str);
    if r == Ok(true) {
      strategy.Vyloz(bar.index, lastPrice, refused);
    }
  }
}
