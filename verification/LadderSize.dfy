/** How long a ladder is and where its orders are, read off the configuration: the
    settings that limit it, the settings of the defensive mode, and the orders one by
    one. */
module LadderSize {
  import opened Pricing
  import opened Ladder
  import opened Strategy
  import opened LadderOrders

  // ---------- The settings of a mode ----------

  predicate Defending(cfg: Config, positions: int) {
    InDefence(positions, cfg.maxpozic, cfg.defModeFrom)
  }

  /** What the mode selects: the curve, the kind of the first order, and the ticks
      after which pending buys are given up. */
  lemma ModeSelects(cfg: Config, s: State)
    ensures Defending(cfg, s.positions) ==>
              && Curve(cfg, s) == cfg.curveDef && Tuned(cfg, s) == s.(ticks2reset := 0.06)
              && (FirstAtMarket(cfg, s) <==> cfg.firstBuyMarket && cfg.firstBuyMarketDefMode)
    ensures !Defending(cfg, s.positions) ==>
              && Curve(cfg, s) == cfg.curve && Tuned(cfg, s) == s.(ticks2reset := cfg.ticks2resetBackup)
              && (FirstAtMarket(cfg, s) <==> cfg.firstBuyMarket)
  {
    DefenceIs(s.positions, cfg.maxpozic, cfg.defModeFrom);
  }

  /** The first order is for one chunk; at market, with some shares but under four
      chunks held, for the multiple of it. */
  lemma FirstOrderIs(cfg: Config, s: State)
    requires cfg.Valid()
    ensures FirstQty(cfg, s)
            == if FirstAtMarket(cfg, s) && 0 < s.positions < 4 * cfg.chunk then cfg.marketBuyMultiplier * cfg.chunk
               else cfg.chunk
  {
  }

  // ---------- The number of orders ----------

  function ModeCurve(cfg: Config, positions: int): seq<real> {
    if Defending(cfg, positions) then cfg.curveDef else cfg.curve
  }

  /** `k` orders are within `vykladka`, the curve, and the chunks of room left. */
  predicate Affords(cfg: Config, s: State, k: int) {
    k <= cfg.vykladka && k <= |ModeCurve(cfg, s.positions)| && k * cfg.chunk <= cfg.maxpozic - s.positions
  }

  lemma FitsChunks(room: int, chunk: int, k: int)
    requires chunk > 0 && room >= 0
    ensures k <= room / chunk <==> k * chunk <= room
  {
    var q := room / chunk;
    assert q * chunk <= room < q * chunk + chunk;
    if k <= q {
      Scale(k, q, chunk);
    } else {
      Scale(q + 1, k, chunk);
      assert (q + 1) * chunk == q * chunk + chunk;
    }
  }

  /** After its first order a ladder takes a step for each further order it can
      afford. */
  lemma StepsAreMost(cfg: Config, s: State, k: nat)
    requires cfg.Valid() && s.positions < cfg.maxpozic && k >= 1
    ensures Affords(cfg, s, k + 1) <==> k <= CurveSteps(cfg, s)
  {
    ModeSelects(cfg, s);
    FitsChunks(Room(cfg, s), cfg.chunk, k + 1);
  }

  lemma {:induction false} RungsAreFew(chunk: int, path: seq<real>)
    requires path != []
    ensures |Allot(chunk, path).rungs| <= |path| - 1
  {
    if |path| == 1 {
    } else {
      RungsAreFew(chunk, path[..|path| - 1]);
    }
  }

  /** The orders a ladder offers, the market buy included. */
  function Offered(cfg: Config, s: State, lastPrice: real): nat
    requires cfg.Valid()
  {
    |LimitRungs(cfg, s, lastPrice)| + if FirstAtMarket(cfg, s) then 1 else 0
  }

  function AtLeastOne(vykladka: int): (n: nat)
    ensures n >= 1 && n >= vykladka && n in {1, vykladka}
  {
    if vykladka > 1 then vykladka else 1
  }

  lemma ChunksWithin(qty: int, first: int, chunk: int, n: int, most: int, whole: bool)
    requires chunk > 0 && n <= most && qty <= first + chunk * n
    requires qty == first + chunk * n <==> whole
    ensures qty <= first + chunk * most
    ensures qty == first + chunk * most <==> n == most && whole
  {
    assert chunk * most - chunk * n == chunk * (most - n);
    if n < most { Scale(1, most - n, chunk); }
  }

  lemma OfferedIsFew(cfg: Config, s: State, lastPrice: real)
    requires cfg.Valid()
    ensures Offered(cfg, s, lastPrice) == |LaterRungs(cfg, s, lastPrice)| + 1
    ensures Offered(cfg, s, lastPrice) <= CurveSteps(cfg, s) + 1 <= AtLeastOne(cfg.vykladka)
  {
    RungsAreFew(cfg.chunk, Path(Curve(cfg, s), Price2Dec(lastPrice, 2), CurveSteps(cfg, s)));
  }

  /** All the steps that `vykladka` asks for are taken when it is affordable. */
  lemma AllStepsIff(cfg: Config, s: State)
    requires cfg.Valid() && s.positions < cfg.maxpozic
    ensures var cap := AtLeastOne(cfg.vykladka) - 1;
            && (CurveSteps(cfg, s) == cap <==> cfg.vykladka <= 1 || Affords(cfg, s, cfg.vykladka))
            && Curve(cfg, s) == ModeCurve(cfg, s.positions)
  {
    ModeSelects(cfg, s);
    if cfg.vykladka > 1 { StepsAreMost(cfg, s, cfg.vykladka - 1); }
  }

  /** The first order, and one chunk for each of the others that `vykladka` asks for. */
  function Most(cfg: Config, s: State): int
    requires cfg.Valid()
  {
    FirstQty(cfg, s) + cfg.chunk * (AtLeastOne(cfg.vykladka) - 1)
  }

  lemma TotalIsMostIff(cfg: Config, s: State, lastPrice: real, refused: set<nat>)
    requires cfg.Valid()
    ensures var n, qty := CurveSteps(cfg, s), LadderQty(cfg, s, lastPrice, refused);
            && qty <= Most(cfg, s)
            && (qty == Most(cfg, s)
                <==> && n == AtLeastOne(cfg.vykladka) - 1 && (n == 0 || Curve(cfg, s)[n - 1] != 0.0)
                     && NoneRefused(s.nextId, Offered(cfg, s, lastPrice), refused))
  {
    var n, qty := CurveSteps(cfg, s), LadderQty(cfg, s, lastPrice, refused);
    OfferedIsFew(cfg, s, lastPrice);
    LadderTotal(cfg, s, lastPrice, refused);
    ChunksWithin(qty, FirstQty(cfg, s), cfg.chunk, n, AtLeastOne(cfg.vykladka) - 1,
                 qty == FirstQty(cfg, s) + cfg.chunk * n);
  }

  /** `vykladka` caps a ladder, for every room and curve: it offers at most `vykladka`
      orders, and its first order besides one chunk for each of the others, but always
      the first order. It adds that much exactly when there is a chunk of room and an
      entry of the curve for each order, the last step moves the price, and nothing
      is refused. */
  lemma VykladkaCaps(cfg: Config, s: State, lastPrice: real, refused: set<nat>)
    requires cfg.Valid() && s.positions < cfg.maxpozic
    ensures Offered(cfg, s, lastPrice) <= AtLeastOne(cfg.vykladka)
    ensures LadderQty(cfg, s, lastPrice, refused) <= Most(cfg, s)
    ensures LadderQty(cfg, s, lastPrice, refused) == Most(cfg, s)
            <==> && NoneRefused(s.nextId, Offered(cfg, s, lastPrice), refused)
                 && (cfg.vykladka > 1 ==> && Affords(cfg, s, cfg.vykladka)
                                          && ModeCurve(cfg, s.positions)[cfg.vykladka - 2] != 0.0)
  {
    OfferedIsFew(cfg, s, lastPrice);
    AllStepsIff(cfg, s);
    TotalIsMostIff(cfg, s, lastPrice, refused);
  }

  // ---------- The orders one by one ----------

  predicate OneStep(chunk: int, before: real, tick: real, r: Rung) {
    r == Rung(before - Scaled(before, tick), chunk)
  }

  /** Rung `i` is for one chunk, one scaled step under the one before it. */
  predicate StepAt(chunk: int, curve: seq<real>, start: real, rungs: seq<Rung>, i: nat)
    requires i < |rungs| <= |curve|
  {
    OneStep(chunk, if i == 0 then start else rungs[i - 1].price, curve[i], rungs[i])
  }

  ghost predicate StepByStep(chunk: int, curve: seq<real>, start: real, rungs: seq<Rung>) {
    |rungs| <= |curve| && forall i :: 0 <= i < |rungs| ==> StepAt(chunk, curve, start, rungs, i)
  }

  predicate Moves(curve: seq<real>, n: nat)
    requires n <= |curve|
  {
    forall i :: 0 <= i < n ==> curve[i] != 0.0
  }

  lemma NextIsOneStep(chunk: int, before: real, tick: real)
    ensures OneStep(chunk, before, tick, Rung(NextPrice(before, tick), chunk))
  {
    TickIsScaled(before, tick);
  }

  lemma StepByStepSnoc(chunk: int, curve: seq<real>, start: real, rungs: seq<Rung>, r: Rung)
    requires StepByStep(chunk, curve, start, rungs) && |rungs| < |curve|
    requires OneStep(chunk, LastPrice(start, rungs), curve[|rungs|], r)
    ensures StepByStep(chunk, curve, start, rungs + [r])
  {
    var longer := rungs + [r];
    forall i | 0 <= i < |longer|
      ensures StepAt(chunk, curve, start, longer, i)
    {
      if i < |rungs| {
        assert StepAt(chunk, curve, start, rungs, i);
        assert longer[i] == rungs[i];
      }
    }
  }

  /** The walk after `n` moving steps: `n` orders, and one chunk carried. */
  ghost predicate Walked(chunk: int, curve: seq<real>, start: real, w: Walk, n: nat) {
    && |w.rungs| == n && StepByStep(chunk, curve, start, w.rungs)
    && w.qty == chunk && w.price == LastPrice(start, w.rungs)
  }

  lemma WalkedStep(chunk: int, curve: seq<real>, start: real, w: Walk, n: nat)
    requires n < |curve| && Walked(chunk, curve, start, w, n) && curve[n] != 0.0
    ensures Walked(chunk, curve, start, Step(chunk, w, NextPrice(w.price, curve[n])), n + 1)
  {
    var r := Rung(NextPrice(w.price, curve[n]), chunk);
    NextPriceMoves(w.price, curve[n]);
    NextIsOneStep(chunk, w.price, curve[n]);
    StepByStepSnoc(chunk, curve, start, w.rungs, r);
  }

  /** On a curve without zeros the walk is the orders one by one, each for one chunk. */
  lemma {:induction false} RungsOneByOne(chunk: int, curve: seq<real>, start: real, n: nat)
    requires n <= |curve| && Moves(curve, n)
    ensures Walked(chunk, curve, start, Descend(chunk, curve, start, n), n)
  {
    if n == 0 {
    } else {
      RungsOneByOne(chunk, curve, start, n - 1);
      DescendStep(chunk, curve, start, n - 1);
      WalkedStep(chunk, curve, start, Descend(chunk, curve, start, n - 1), n - 1);
    }
  }

  /** So on a curve without zeros a ladder puts its first order and then as many of its
      orders as it affords, one chunk each, at prices down the curve of its mode. */
  lemma LadderOneByOne(cfg: Config, s: State, lastPrice: real)
    requires cfg.Valid() && s.positions < cfg.maxpozic
    requires Moves(Curve(cfg, s), CurveSteps(cfg, s))
    ensures var later := LaterRungs(cfg, s, lastPrice);
            && StepByStep(cfg.chunk, ModeCurve(cfg, s.positions), lastPrice, later)
            && forall k :: k >= 2 ==> (k <= |later| + 1 <==> Affords(cfg, s, k))
  {
    ModeSelects(cfg, s);
    RungsOneByOne(cfg.chunk, Curve(cfg, s), lastPrice, CurveSteps(cfg, s));
    forall k | k >= 2
      ensures k <= CurveSteps(cfg, s) + 1 <==> Affords(cfg, s, k)
    {
      StepsAreMost(cfg, s, k - 1);
    }
  }
}
