/** What holds in every reachable state of the laddering strategy, whatever the
    fills, cancels, refusals, signals and prices, and in whatever order the phases
    run. */
module StrategyRuns {
  import opened Orders
  import opened Strategy
  import opened LadderOrders

  // ---------- Runs ----------

  ghost predicate Legal(cfg: Config, s: State, es: seq<Event>)
    requires cfg.Valid()
    decreases |es|
  {
    es != [] ==> Enabled(s, es[0]) && Legal(cfg, Apply(cfg, s, es[0]), es[1..])
  }

  ghost function Run(cfg: Config, s: State, es: seq<Event>): State
    requires cfg.Valid() && Legal(cfg, s, es)
    decreases |es|
  {
    if es == [] then s else Run(cfg, Apply(cfg, s, es[0]), es[1..])
  }

  lemma RunCons(cfg: Config, s: State, e: Event, es: seq<Event>)
    requires cfg.Valid() && Enabled(s, e) && Legal(cfg, Apply(cfg, s, e), es)
    ensures Legal(cfg, s, [e] + es) && Run(cfg, s, [e] + es) == Run(cfg, Apply(cfg, s, e), es)
  {
    assert ([e] + es)[1..] == es;
  }

  /** Shares held plus shares that open buys can still add. */
  function Exposure(s: State): int {
    s.held + s.openBuy + OpenQty(s.orders)
  }

  ghost predicate Lays(cfg: Config, s: State, e: Event) {
    e.BuyPhase? && !BuyBlocked(cfg, s, e.bar) && e.signal && s.positions < cfg.maxpozic
  }

  // ---------- The book ----------

  ghost predicate OpenBuys(book: Book, nextId: nat) {
    DistinctIds(book) && forall o :: o in book ==> o.IsLimitBuy() && o.Remaining() > 0 && o.id < nextId
  }

  /** The broker's book is in order and the flags are flags. */
  ghost predicate WellFormed(s: State) {
    OpenBuys(s.orders, s.nextId) && s.openBuy >= 0 && s.blockbuy in {0, 1} && s.jevylozeno in {0, 1}
  }

  lemma DropEffect(book: Book, k: nat)
    requires k < |book|
    ensures OpenQty(book[..k] + book[k + 1..]) == OpenQty(book) - book[k].Remaining()
  {
    SplitAt(book, k);
    OpenQtyDrop(book[..k], book[k], book[k + 1..]);
  }

  lemma PartEffect(book: Book, k: nat, qty: int)
    requires k < |book|
    ensures OpenQty(book[k := Partly(book[k], qty)]) == OpenQty(book) - qty
  {
    var o := Partly(book[k], qty);
    assert book[k := o] == book[..k] + [o] + book[k + 1..];
    OpenQtyAround(book[..k], o, book[k + 1..]);
    SplitAt(book, k);
    OpenQtyAround(book[..k], book[k], book[k + 1..]);
  }

  lemma DropKeeps(book: Book, k: nat, nextId: nat)
    requires k < |book| && OpenBuys(book, nextId)
    ensures OpenBuys(book[..k] + book[k + 1..], nextId)
    ensures forall o :: o in book[..k] + book[k + 1..] ==> o in book && o.id != book[k].id
  {
  }

  lemma LadderKeeps(cfg: Config, s: State, lastPrice: real, refused: set<nat>)
    requires cfg.Valid() && OpenBuys(s.orders, s.nextId)
    ensures var placed := Placed(cfg, s, lastPrice, refused);
            OpenBuys(s.orders + placed, LimitFrom(cfg, s) + |LimitRungs(cfg, s, lastPrice)|)
  {
    var rungs, first := LimitRungs(cfg, s, lastPrice), LimitFrom(cfg, s);
    LimitRungsPositive(cfg, s, lastPrice);
    OrdersOfIds(rungs, first, refused);
    OrdersOfMeans(rungs, first, refused);
    var placed := Placed(cfg, s, lastPrice, refused);
    assert forall o :: o in placed ==> o == Offer(rungs[o.id - first], o.id) && o.Remaining() > 0;
  }

  lemma LadderStep(cfg: Config, s: State, e: Event)
    requires cfg.Valid() && WellFormed(s) && Lays(cfg, s, e)
    ensures var t := Apply(cfg, s, e);
            && WellFormed(t) && t.blockbuy == 1 && t.jevylozeno == 1
            && Exposure(t) == Exposure(s) + LadderQty(cfg, s, e.lastPrice, e.refused)
  {
    LadderIs(cfg, s, e.lastPrice, e.bar.index, e.refused);
    LadderKeeps(cfg, s, e.lastPrice, e.refused);
    OpenQtyAppend(s.orders, Placed(cfg, s, e.lastPrice, e.refused));
    FirstQtyBounds(cfg, s);
  }

  lemma LadderFrame(cfg: Config, s: State, e: Event)
    requires cfg.Valid() && Lays(cfg, s, e)
    ensures var t := Apply(cfg, s, e);
            && t.held == s.held && t.positions == s.positions && t.avgp == s.avgp && t.lastbuyindex == e.bar.index
            && t.openSell == s.openSell && t.sells == s.sells && t.sellInProgress == s.sellInProgress
            && (!cfg.firstBuyMarket ==> t.openBuy == s.openBuy)
  {
    LadderIs(cfg, s, e.lastPrice, e.bar.index, e.refused);
  }

  lemma CancelKeeps(s: State, cancelled: set<nat>)
    requires WellFormed(s)
    ensures var t := CancelPending(s, cancelled); WellFormed(t) && Exposure(t) <= Exposure(s)
  {
    WithoutKeepsRest(s.orders, cancelled * s.pendingbuys.Keys);
  }

  lemma WithoutOrderKeeps(s: State, k: nat)
    requires WellFormed(s) && k < |s.orders|
    ensures var t := WithoutOrder(s, k);
            && WellFormed(t) && s.orders[k].Remaining() > 0
            && Exposure(t) == Exposure(s) - s.orders[k].Remaining()
  {
    assert s.orders[k] in s.orders;
    DropKeeps(s.orders, k, s.nextId);
    DropEffect(s.orders, k);
  }

  lemma PartFillKeeps(s: State, k: nat, qty: int)
    requires WellFormed(s) && k < |s.orders| && 0 < qty < s.orders[k].Remaining()
    ensures var t := s.(orders := s.orders[k := Partly(s.orders[k], qty)]);
            WellFormed(t) && Exposure(t) == Exposure(s) - qty
  {
    PartEffect(s.orders, k, qty);
  }

  lemma SameBook(s: State, t: State)
    requires WellFormed(s) && t.orders == s.orders && t.nextId == s.nextId && t.openBuy == s.openBuy
    requires t.blockbuy in {0, s.blockbuy} && t.jevylozeno in {0, 1}
    ensures WellFormed(t) && Exposure(t) - t.held == Exposure(s) - s.held
  {
  }

  lemma ConsolidationKeeps(cfg: Config, s: State, index: int, report: Report)
    requires cfg.Valid() && WellFormed(s)
    ensures WellFormed(Consolidate(cfg, s, index, report)) && Exposure(Consolidate(cfg, s, index, report)) == Exposure(s)
  {
    SameBook(s, Consolidate(cfg, s, index, report));
  }

  lemma PhaseKeeps(cfg: Config, s: State, e: Event)
    requires cfg.Valid() && WellFormed(s) && IsPhase(e)
    ensures WellFormed(Apply(cfg, s, e))
    ensures Lays(cfg, s, e) ==> Exposure(Apply(cfg, s, e)) == Exposure(s) + LadderQty(cfg, s, e.lastPrice, e.refused)
    ensures !Lays(cfg, s, e) ==> Exposure(Apply(cfg, s, e)) <= Exposure(s)
  {
    match e
    case SellPhase(_, _, _) => SameBook(s, Apply(cfg, s, e));
    case ConsolidationPhase(index, report) => ConsolidationKeeps(cfg, s, index, report);
    case BuyPhase(_, _, _, _) => if Lays(cfg, s, e) { LadderStep(cfg, s, e); }
    case PendingPhase(_, _, cancelled) => CancelKeeps(s, cancelled);
  }

  predicate EndsOrder(e: Event) {
    e.Fill? || e.Drop? || e.Lapse?
  }

  lemma BuyUpdateSame(s: State, event: TradeEvent, id: nat, report: Report)
    requires WellFormed(s)
    ensures var t := BuyUpdate(s, event, id, report);
            && WellFormed(t) && Exposure(t) == Exposure(s)
            && t.orders == s.orders && t.jevylozeno == s.jevylozeno
            && (forall other :: other in s.pendingbuys && other != id ==> other in t.pendingbuys)
  {
    SameBook(s, BuyUpdate(s, event, id, report));
  }

  lemma EndKeeps(s: State, e: Event)
    requires Enabled(s, e) && WellFormed(s) && EndsOrder(e)
    ensures WellFormed(ApplyBuyUpdate(s, e)) && Exposure(ApplyBuyUpdate(s, e)) <= Exposure(s)
  {
    WithoutOrderKeeps(s, e.k);
    var left := WithoutOrder(s, e.k);
    match e
    case Fill(k, report) =>
      var filled := left.(held := s.held + s.orders[k].Remaining());
      SameBook(left, filled);
      BuyUpdateSame(filled, FILL, s.orders[k].id, report);
    case Drop(k) => BuyUpdateSame(left, CANCELED, s.orders[k].id, Unknown);
    case Lapse(k) =>
  }

  lemma PartKeeps(s: State, k: int, qty: int, report: Report)
    requires Enabled(s, PartFill(k, qty, report)) && WellFormed(s)
    ensures var t := ApplyBuyUpdate(s, PartFill(k, qty, report)); WellFormed(t) && Exposure(t) <= Exposure(s)
  {
    PartFillKeeps(s, k, qty);
    var left := s.(orders := s.orders[k := Partly(s.orders[k], qty)]);
    SameBook(left, left.(held := s.held + qty));
    BuyUpdateSame(left.(held := s.held + qty), PARTIAL_FILL, s.orders[k].id, report);
  }

  lemma MarketKeeps(s: State, e: Event)
    requires Enabled(s, e) && WellFormed(s) && (e.Notice? || e.MarketFill? || e.MarketPart? || e.MarketDrop?)
    ensures WellFormed(ApplyBuyUpdate(s, e)) && Exposure(ApplyBuyUpdate(s, e)) <= Exposure(s)
  {
    match e
    case Notice(id) => BuyUpdateSame(s, CANCELED, id, Unknown);
    case MarketFill(id, qty, report) =>
      BuyUpdateSame(s.(openBuy := s.openBuy - qty, held := s.held + qty), FILL, id, report);
    case MarketPart(qty, report) =>
    case MarketDrop(id, qty) => BuyUpdateSame(s.(openBuy := s.openBuy - qty), CANCELED, id, Unknown);
  }

  lemma BuyUpdateKeeps(cfg: Config, s: State, e: Event)
    requires cfg.Valid() && Enabled(s, e) && WellFormed(s) && !IsPhase(e) && !IsSellUpdate(e)
    ensures WellFormed(Apply(cfg, s, e)) && Exposure(Apply(cfg, s, e)) <= Exposure(s)
  {
    if EndsOrder(e) {
      EndKeeps(s, e);
    } else if e.PartFill? {
      PartKeeps(s, e.k, e.qty, e.report);
    } else {
      MarketKeeps(s, e);
    }
  }

  lemma NotedSame(cfg: Config, s: State, event: TradeEvent, report: Report)
    requires WellFormed(s)
    ensures var t := SellNoted(cfg, s, event, report);
            && WellFormed(t) && Exposure(t) == Exposure(s)
            && t.held == s.held && t.orders == s.orders && t.pendingbuys == s.pendingbuys
            && t.openBuy == s.openBuy && t.openSell == s.openSell && t.sells == s.sells && t.blockbuy == s.blockbuy
            && (event == PARTIAL_FILL ==> t.jevylozeno == s.jevylozeno)
  {
    SameBook(s, SellNoted(cfg, s, event, report));
  }

  lemma SellUpdateKeeps(cfg: Config, s: State, event: TradeEvent, report: Report, cancelled: set<nat>)
    requires WellFormed(s)
    ensures var t := SellUpdate(cfg, s, event, report, cancelled); WellFormed(t) && Exposure(t) <= Exposure(s)
  {
    NotedSame(cfg, s, event, report);
    CancelKeeps(SellNoted(cfg, s, event, report), cancelled);
  }

  lemma SoldSame(s: State, e: Event)
    requires WellFormed(s) && IsSellUpdate(e) && Enabled(s, e)
    ensures WellFormed(Sold(s, e)) && Exposure(Sold(s, e)) <= Exposure(s)
  {
    SameBook(s, Sold(s, e));
  }

  lemma SellKeeps(cfg: Config, s: State, e: Event)
    requires cfg.Valid() && Enabled(s, e) && WellFormed(s) && IsSellUpdate(e)
    ensures WellFormed(Apply(cfg, s, e)) && Exposure(Apply(cfg, s, e)) <= Exposure(s)
  {
    SoldSame(s, e);
    match e
    case SellPart(_) => SellUpdateKeeps(cfg, Sold(s, e), PARTIAL_FILL, Unknown, {});
    case SellWhole(report, cancelled) => SellUpdateKeeps(cfg, Sold(s, e), FILL, report, cancelled);
    case SellCancel(report, cancelled) => SellUpdateKeeps(cfg, Sold(s, e), CANCELED, report, cancelled);
  }

  /** Every step keeps the book in order, and exposure grows by a ladder's quantity
      when a ladder is laid and at no other time. */
  lemma StepKeeps(cfg: Config, s: State, e: Event)
    requires cfg.Valid() && Enabled(s, e) && WellFormed(s)
    ensures WellFormed(Apply(cfg, s, e))
    ensures Lays(cfg, s, e) ==> Exposure(Apply(cfg, s, e)) == Exposure(s) + LadderQty(cfg, s, e.lastPrice, e.refused)
    ensures !Lays(cfg, s, e) ==> Exposure(Apply(cfg, s, e)) <= Exposure(s)
  {
    if IsPhase(e) {
      PhaseKeeps(cfg, s, e);
    } else if IsSellUpdate(e) {
      SellKeeps(cfg, s, e);
    } else {
      BuyUpdateKeeps(cfg, s, e);
    }
  }

  // ---------- Exposure against any bound ----------

  /** In every state of the run. */
  ghost predicate AlwaysWithin(cfg: Config, s: State, es: seq<Event>, bound: int)
    requires cfg.Valid() && Legal(cfg, s, es)
    decreases |es|
  {
    Exposure(s) <= bound && (es != [] ==> AlwaysWithin(cfg, Apply(cfg, s, es[0]), es[1..], bound))
  }

  ghost predicate LaddersFit(cfg: Config, s: State, es: seq<Event>, bound: int)
    requires cfg.Valid() && Legal(cfg, s, es)
    decreases |es|
  {
    es != [] ==>
      && (Lays(cfg, s, es[0]) ==> Exposure(s) + LadderQty(cfg, s, es[0].lastPrice, es[0].refused) <= bound)
      && LaddersFit(cfg, Apply(cfg, s, es[0]), es[1..], bound)
  }

  /** For any bound at all, and with any buys outstanding: a run keeps its exposure
      within the bound exactly when each ladder of the run, added to the exposure it
      finds, is within it. */
  lemma {:induction false} BoundKeptIff(cfg: Config, s: State, es: seq<Event>, bound: int)
    requires cfg.Valid() && Legal(cfg, s, es) && WellFormed(s) && Exposure(s) <= bound
    ensures AlwaysWithin(cfg, s, es, bound) <==> LaddersFit(cfg, s, es, bound)
    decreases |es|
  {
    if es == [] {
    } else {
      StepKeeps(cfg, s, es[0]);
      var next := Apply(cfg, s, es[0]);
      if Exposure(next) <= bound {
        BoundKeptIff(cfg, next, es[1..], bound);
      } else {
        assert !AlwaysWithin(cfg, next, es[1..], bound);
      }
    }
  }

  // ---------- What the strategy knows of the book ----------

  /** Every open limit buy is in `pendingbuys`, and none is open while `jevylozeno`
      is 0. */
  ghost predicate Tracked(s: State) {
    && WellFormed(s)
    && (forall o :: o in s.orders ==> o.id in s.pendingbuys)
    && (s.jevylozeno == 0 ==> s.orders == [])
  }

  ghost predicate AllCancelled(s: State, cancelled: set<nat>) {
    forall o :: o in s.orders ==> o.id in cancelled
  }

  /** If the step cancels the pending buys, the broker carries out every cancel. */
  ghost predicate CancelsTaken(s: State, e: Event) {
    match e
    case PendingPhase(cancel, lastPrice, cancelled) => GivesUp(s, cancel, lastPrice) ==> AllCancelled(s, cancelled)
    case SellWhole(_, cancelled) => AllCancelled(s, cancelled)
    case SellCancel(_, cancelled) => AllCancelled(s, cancelled)
    case _ => true
  }

  lemma CancelTracks(s: State, cancelled: set<nat>)
    requires WellFormed(s) && forall o :: o in s.orders ==> o.id in s.pendingbuys
    ensures CancelPending(s, cancelled).orders == [] <==> AllCancelled(s, cancelled)
    ensures Tracked(CancelPending(s, cancelled)) <==> AllCancelled(s, cancelled)
  {
    var ids := cancelled * s.pendingbuys.Keys;
    CancelKeeps(s, cancelled);
    WithoutKeepsRest(s.orders, ids);
    var t := CancelPending(s, cancelled);
    if AllCancelled(s, cancelled) {
      WithoutAll(s.orders, ids);
    } else {
      var o :| o in s.orders && o.id !in cancelled;
      assert o in t.orders && o.id !in t.pendingbuys;
    }
  }

  lemma PlacedIsPending(cfg: Config, s: State, lastPrice: real, refused: set<nat>)
    requires cfg.Valid()
    ensures forall o :: o in Placed(cfg, s, lastPrice, refused) ==>
              o.id in PendingOf(Placed(cfg, s, lastPrice, refused))
  {
    OrdersOfMeans(LimitRungs(cfg, s, lastPrice), LimitFrom(cfg, s), refused);
    PendingOfCovers(Placed(cfg, s, lastPrice, refused));
  }

  lemma PhaseTracks(cfg: Config, s: State, e: Event)
    requires cfg.Valid() && Tracked(s) && IsPhase(e)
    ensures Tracked(Apply(cfg, s, e)) <==> CancelsTaken(s, e)
    ensures Lays(cfg, s, e) ==> s.orders == []
  {
    PhaseKeeps(cfg, s, e);
    match e
    case BuyPhase(bar, _, lastPrice, refused) =>
      if Lays(cfg, s, e) {
        LadderIs(cfg, s, lastPrice, bar.index, refused);
        PlacedIsPending(cfg, s, lastPrice, refused);
      }
    case ConsolidationPhase(_, _) => PendingOfCovers(s.orders);
    case PendingPhase(cancel, lastPrice, cancelled) =>
      if GivesUp(s, cancel, lastPrice) { CancelTracks(s, cancelled); }
    case _ =>
  }

  lemma BuyUpdateStaysTracked(s: State, event: TradeEvent, id: nat, report: Report)
    requires Tracked(s) && forall o :: o in s.orders ==> event == PARTIAL_FILL || o.id != id
    ensures Tracked(BuyUpdate(s, event, id, report))
  {
    BuyUpdateSame(s, event, id, report);
  }

  lemma WithoutOrderTracks(s: State, k: nat)
    requires Tracked(s) && k < |s.orders|
    ensures Tracked(WithoutOrder(s, k)) && forall o :: o in WithoutOrder(s, k).orders ==> o.id != s.orders[k].id
  {
    WithoutOrderKeeps(s, k);
    DropKeeps(s.orders, k, s.nextId);
  }

  lemma EndTracks(s: State, e: Event)
    requires Enabled(s, e) && Tracked(s) && EndsOrder(e)
    ensures Tracked(ApplyBuyUpdate(s, e))
  {
    WithoutOrderTracks(s, e.k);
    var left := WithoutOrder(s, e.k);
    match e
    case Fill(k, report) =>
      BuyUpdateStaysTracked(left.(held := s.held + s.orders[k].Remaining()), FILL, s.orders[k].id, report);
    case Drop(k) => BuyUpdateStaysTracked(left, CANCELED, s.orders[k].id, Unknown);
    case Lapse(k) =>
  }

  lemma PartFillTracks(s: State, k: int, qty: int, report: Report)
    requires Enabled(s, PartFill(k, qty, report)) && Tracked(s)
    ensures Tracked(ApplyBuyUpdate(s, PartFill(k, qty, report)))
  {
    PartFillKeeps(s, k, qty);
    var left := s.(orders := s.orders[k := Partly(s.orders[k], qty)]);
    assert s.orders[k] in s.orders;
    assert forall o :: o in left.orders ==> o in s.orders || o.id == s.orders[k].id;
    BuyUpdateStaysTracked(left.(held := s.held + qty), PARTIAL_FILL, s.orders[k].id, report);
  }

  lemma BuyUpdateTracks(cfg: Config, s: State, e: Event)
    requires cfg.Valid() && Enabled(s, e) && Tracked(s) && !IsPhase(e) && !IsSellUpdate(e)
    ensures Tracked(Apply(cfg, s, e))
  {
    if EndsOrder(e) {
      EndTracks(s, e);
    } else if e.PartFill? {
      PartFillTracks(s, e.k, e.qty, e.report);
    } else {
      MarketKeeps(s, e);
    }
  }

  lemma SellUpdateTracks(cfg: Config, s: State, event: TradeEvent, report: Report, cancelled: set<nat>)
    requires WellFormed(s) && (forall o :: o in s.orders ==> o.id in s.pendingbuys) && event != PARTIAL_FILL
    ensures var t := SellUpdate(cfg, s, event, report, cancelled);
            && (t.orders == [] <==> AllCancelled(s, cancelled))
            && (Tracked(t) <==> AllCancelled(s, cancelled))
  {
    var noted := SellNoted(cfg, s, event, report);
    NotedSame(cfg, s, event, report);
    CancelTracks(noted, cancelled);
    assert AllCancelled(noted, cancelled) <==> AllCancelled(s, cancelled);
  }

  lemma SellTracks(cfg: Config, s: State, e: Event)
    requires cfg.Valid() && Enabled(s, e) && Tracked(s) && IsSellUpdate(e)
    ensures Tracked(Apply(cfg, s, e)) <==> CancelsTaken(s, e)
    ensures !e.SellPart? ==> (Apply(cfg, s, e).orders == [] <==> CancelsTaken(s, e))
  {
    SoldSame(s, e);
    match e
    case SellPart(_) => NotedSame(cfg, Sold(s, e), PARTIAL_FILL, Unknown);
    case SellWhole(report, cancelled) => SellUpdateTracks(cfg, Sold(s, e), FILL, report, cancelled);
    case SellCancel(report, cancelled) => SellUpdateTracks(cfg, Sold(s, e), CANCELED, report, cancelled);
  }

  /** A tracked state stays tracked exactly when the broker carries out the cancels
      of the step, and every ladder laid in one finds no limit buy open. */
  lemma StepTracked(cfg: Config, s: State, e: Event)
    requires cfg.Valid() && Enabled(s, e) && Tracked(s)
    ensures Tracked(Apply(cfg, s, e)) <==> CancelsTaken(s, e)
    ensures Lays(cfg, s, e) ==> s.orders == []
  {
    if IsPhase(e) {
      PhaseTracks(cfg, s, e);
    } else if IsSellUpdate(e) {
      SellTracks(cfg, s, e);
    } else {
      BuyUpdateTracks(cfg, s, e);
    }
  }

  predicate Due(cfg: Config, e: Event)
    requires cfg.Valid()
  {
    e.ConsolidationPhase? && e.index % cfg.consolidationBarCount == 0
  }

  /** A due consolidation restores tracking, whatever was refused before. */
  lemma ConsolidationTracks(cfg: Config, s: State, e: Event)
    requires cfg.Valid() && WellFormed(s) && Due(cfg, e)
    ensures Tracked(Apply(cfg, s, e))
  {
    PendingOfCovers(s.orders);
    if s.orders != [] {
      assert s.orders[0] in s.orders && s.orders[0].id in PendingOf(s.orders).Keys;
    }
  }

  /** No ladder is laid between a refused cancel and the next due consolidation. */
  ghost predicate Resynced(cfg: Config, s: State, es: seq<Event>, tracked: bool)
    requires cfg.Valid() && Legal(cfg, s, es)
    decreases |es|
  {
    es != [] ==>
      && (Lays(cfg, s, es[0]) ==> tracked)
      && Resynced(cfg, Apply(cfg, s, es[0]), es[1..], (tracked && CancelsTaken(s, es[0])) || Due(cfg, es[0]))
  }

  /** Each ladder of the run is laid with no market buy outstanding. */
  ghost predicate MarketBuysFilled(cfg: Config, s: State, es: seq<Event>)
    requires cfg.Valid() && Legal(cfg, s, es)
    decreases |es|
  {
    es != [] ==>
      && (Lays(cfg, s, es[0]) ==> s.openBuy == 0)
      && MarketBuysFilled(cfg, Apply(cfg, s, es[0]), es[1..])
  }

  /** Each ladder of the run is laid with the position known: no refresh has failed
      since the last one that did not. */
  ghost predicate PositionsKnown(cfg: Config, s: State, es: seq<Event>)
    requires cfg.Valid() && Legal(cfg, s, es)
    decreases |es|
  {
    es != [] ==>
      && (Lays(cfg, s, es[0]) ==> s.positions == s.held)
      && PositionsKnown(cfg, Apply(cfg, s, es[0]), es[1..])
  }

  /** The refreshes of a step are answered. */
  predicate Answered(e: Event) {
    match e
    case ConsolidationPhase(_, report) => report.Known?
    case Fill(_, report) => report.Known?
    case PartFill(_, _, report) => report.Known?
    case MarketFill(_, _, report) => report.Known?
    case MarketPart(_, report) => report.Known?
    case _ => true
  }

  lemma StepInforms(cfg: Config, s: State, e: Event)
    requires cfg.Valid() && Enabled(s, e) && s.positions == s.held && Answered(e)
    ensures Apply(cfg, s, e).positions == Apply(cfg, s, e).held
  {
    if Lays(cfg, s, e) { LadderFrame(cfg, s, e); }
  }

  /** In a run whose refreshes are all answered the position is always known. */
  lemma {:induction false} AnsweredIsKnown(cfg: Config, s: State, es: seq<Event>)
    requires cfg.Valid() && Legal(cfg, s, es) && s.positions == s.held && forall e <- es :: Answered(e)
    ensures PositionsKnown(cfg, s, es)
    decreases |es|
  {
    if es == [] {
    } else {
      assert es[0] in es && forall e :: e in es[1..] ==> e in es;
      StepInforms(cfg, s, es[0]);
      AnsweredIsKnown(cfg, Apply(cfg, s, es[0]), es[1..]);
    }
  }

  lemma StepResyncs(cfg: Config, s: State, e: Event, tracked: bool)
    requires cfg.Valid() && Enabled(s, e) && WellFormed(s) && (tracked ==> Tracked(s))
    ensures (tracked && CancelsTaken(s, e)) || Due(cfg, e) ==> Tracked(Apply(cfg, s, e))
    ensures tracked && Lays(cfg, s, e) ==> s.orders == []
  {
    if tracked { StepTracked(cfg, s, e); }
    if Due(cfg, e) { ConsolidationTracks(cfg, s, e); }
  }

  function Bound(cfg: Config, start: int): int {
    if start > cfg.maxpozic + Overshoot(cfg) then start else cfg.maxpozic + Overshoot(cfg)
  }

  lemma {:induction false} ResyncedFits(cfg: Config, s: State, es: seq<Event>, tracked: bool, bound: int)
    requires cfg.Valid() && Legal(cfg, s, es) && WellFormed(s) && (tracked ==> Tracked(s))
    requires Resynced(cfg, s, es, tracked) && MarketBuysFilled(cfg, s, es) && PositionsKnown(cfg, s, es)
    requires cfg.maxpozic + Overshoot(cfg) <= bound
    ensures LaddersFit(cfg, s, es, bound)
    decreases |es|
  {
    if es == [] {
    } else {
      StepKeeps(cfg, s, es[0]);
      StepResyncs(cfg, s, es[0], tracked);
      if Lays(cfg, s, es[0]) {
        LadderFits(cfg, s, es[0].lastPrice, es[0].refused);
      }
      ResyncedFits(cfg, Apply(cfg, s, es[0]), es[1..],
                   (tracked && CancelsTaken(s, es[0])) || Due(cfg, es[0]), bound);
    }
  }

  /** Safety: in every state of every run whose ladders wait for market buys to fill,
      for a consolidation after a refused cancel and for the position after a failed
      refresh, shares held plus shares on open buys stay within `maxpozic` plus what
      one ladder can exceed its room by. */
  lemma ExposureBound(cfg: Config, positions: int, avgp: real, es: seq<Event>)
    requires cfg.Valid() && Legal(cfg, Initial(cfg, positions, avgp), es)
    requires Resynced(cfg, Initial(cfg, positions, avgp), es, true)
    requires MarketBuysFilled(cfg, Initial(cfg, positions, avgp), es)
    requires PositionsKnown(cfg, Initial(cfg, positions, avgp), es)
    ensures AlwaysWithin(cfg, Initial(cfg, positions, avgp), es, Bound(cfg, positions))
  {
    var s := Initial(cfg, positions, avgp);
    ResyncedFits(cfg, s, es, true, Bound(cfg, positions));
    BoundKeptIff(cfg, s, es, Bound(cfg, positions));
  }

  lemma LimitStep(cfg: Config, s: State, e: Event)
    requires cfg.Valid() && Enabled(s, e) && WellFormed(s) && !cfg.firstBuyMarket && s.openBuy == 0
    ensures Apply(cfg, s, e).openBuy == 0
  {
    if Lays(cfg, s, e) { LadderFrame(cfg, s, e); }
  }

  lemma {:induction false} LimitLaddersWaitForNothing(cfg: Config, s: State, es: seq<Event>)
    requires cfg.Valid() && Legal(cfg, s, es) && WellFormed(s)
    requires !cfg.firstBuyMarket && s.openBuy == 0
    ensures MarketBuysFilled(cfg, s, es)
    decreases |es|
  {
    if es == [] {
    } else {
      StepKeeps(cfg, s, es[0]);
      LimitStep(cfg, s, es[0]);
      LimitLaddersWaitForNothing(cfg, Apply(cfg, s, es[0]), es[1..]);
    }
  }

  /** With limit ladders only there is no market buy to wait for. */
  lemma ExposureBoundOfLimitLadders(cfg: Config, positions: int, avgp: real, es: seq<Event>)
    requires cfg.Valid() && !cfg.firstBuyMarket && Legal(cfg, Initial(cfg, positions, avgp), es)
    requires Resynced(cfg, Initial(cfg, positions, avgp), es, true)
    requires PositionsKnown(cfg, Initial(cfg, positions, avgp), es)
    ensures AlwaysWithin(cfg, Initial(cfg, positions, avgp), es, Bound(cfg, positions))
  {
    LimitLaddersWaitForNothing(cfg, Initial(cfg, positions, avgp), es);
    ExposureBound(cfg, positions, avgp, es);
  }

  // ---------- `maxpozic` itself ----------

  ghost predicate ChunkOfRoomAtEachLadder(cfg: Config, s: State, es: seq<Event>)
    requires cfg.Valid() && Legal(cfg, s, es)
    decreases |es|
  {
    es != [] ==>
      && (Lays(cfg, s, es[0]) ==> Room(cfg, s) >= cfg.chunk || s.nextId in es[0].refused)
      && ChunkOfRoomAtEachLadder(cfg, Apply(cfg, s, es[0]), es[1..])
  }

  lemma {:induction false} FitsIffChunkOfRoom(cfg: Config, s: State, es: seq<Event>, tracked: bool)
    requires cfg.Valid() && Legal(cfg, s, es) && WellFormed(s) && (tracked ==> Tracked(s))
    requires Resynced(cfg, s, es, tracked) && MarketBuysFilled(cfg, s, es) && PositionsKnown(cfg, s, es)
    requires TopMultiplier(cfg) == 1
    ensures LaddersFit(cfg, s, es, cfg.maxpozic) <==> ChunkOfRoomAtEachLadder(cfg, s, es)
    decreases |es|
  {
    if es == [] {
    } else {
      StepKeeps(cfg, s, es[0]);
      StepResyncs(cfg, s, es[0], tracked);
      if Lays(cfg, s, es[0]) {
        LadderFits(cfg, s, es[0].lastPrice, es[0].refused);
      }
      FitsIffChunkOfRoom(cfg, Apply(cfg, s, es[0]), es[1..],
                         (tracked && CancelsTaken(s, es[0])) || Due(cfg, es[0]));
    }
  }

  /** The same, read off the positions alone: without multiplied market buys such a
      run stays within `maxpozic` exactly when each of its ladders is laid with a
      full chunk of room, or has its first order refused. The guard of the ladder
      compares only the positions with `maxpozic`, and the first order ignores the
      room. */
  lemma MaxpozicKeptIff(cfg: Config, s: State, es: seq<Event>, tracked: bool)
    requires cfg.Valid() && Legal(cfg, s, es) && WellFormed(s) && (tracked ==> Tracked(s))
    requires Resynced(cfg, s, es, tracked) && MarketBuysFilled(cfg, s, es) && PositionsKnown(cfg, s, es)
    requires TopMultiplier(cfg) == 1
    requires Exposure(s) <= cfg.maxpozic
    ensures AlwaysWithin(cfg, s, es, cfg.maxpozic) <==> ChunkOfRoomAtEachLadder(cfg, s, es)
  {
    FitsIffChunkOfRoom(cfg, s, es, tracked);
    BoundKeptIff(cfg, s, es, cfg.maxpozic);
  }

  /** The bound is met with one share of room, whatever the chunk and the multiplier,
      by an order that the broker accepts. */
  lemma BoundIsReached(cfg: Config, s: State, e: Event)
    requires cfg.Valid() && WellFormed(s) && Exposure(s) == s.positions == cfg.maxpozic - 1
    requires Lays(cfg, s, e) && s.nextId !in e.refused
    ensures Exposure(Apply(cfg, s, e)) == cfg.maxpozic + FirstQty(cfg, s) - 1
  {
    LadderStep(cfg, s, e);
    ReachedWithOneShare(cfg, s, e.lastPrice, e.refused);
  }

  /** And, over a bound that is a multiplied order less one chunk, with whole chunks
      of room that the curve uses up. */
  lemma BoundIsReachedByChunks(cfg: Config, s: State, e: Event)
    requires cfg.Valid() && WellFormed(s) && Exposure(s) == s.positions
    requires Lays(cfg, s, e) && Room(cfg, s) == cfg.chunk * (CurveSteps(cfg, s) + 1)
    requires CurveSteps(cfg, s) > 0 ==> Curve(cfg, s)[CurveSteps(cfg, s) - 1] != 0.0
    requires NoneRefused(s.nextId, |LaterRungs(cfg, s, e.lastPrice)| + 1, e.refused)
    ensures Exposure(Apply(cfg, s, e)) == cfg.maxpozic + FirstQty(cfg, s) - cfg.chunk
  {
    LadderStep(cfg, s, e);
    ReachedWithChunks(cfg, s, e.lastPrice, e.refused);
  }
}
